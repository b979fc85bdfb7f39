/**
 * `InMemoryLinkStore` (src/ontology_framework/core.py): the ordered list of
 * (link type, source pk, target pk) triples.
 */
module LinkStores {
  import opened Wrappers
  import opened Values
  import opened Schema
  import Seqs

  predicate IsTriple(l: Link, t: string, s: Value, d: Value)
  {
    l.linkType == t && l.source == s && l.target == d
  }

  /** `list_links(t)`: every link when t is falsy, otherwise the type-t links in insertion order. */
  function ListLinks(links: seq<Link>, t: Option<string>): seq<Link>
  {
    if t.None? || t.value == "" then links
    else Seqs.Filter(links, (l: Link) => l.linkType == t.value)
  }

  /** The list `delete_link(t, s, d)` rebuilds: every link except the exact triple. */
  function WithoutTriple(links: seq<Link>, t: string, s: Value, d: Value): seq<Link>
  {
    Seqs.Filter(links, (l: Link) => !IsTriple(l, t, s, d))
  }

  /** `list_links(t)` holds exactly the type-t links, and filtering distributes over appends (order). */
  lemma ListLinksSpec(links: seq<Link>, more: seq<Link>, t: string)
    requires t != ""
    ensures forall l :: l in ListLinks(links, Some(t)) <==> l in links && l.linkType == t
    ensures ListLinks(links + more, Some(t)) == ListLinks(links, Some(t)) + ListLinks(more, Some(t))
  {
    Seqs.FilterConcat(links, more, (l: Link) => l.linkType == t);
    forall l | l in links && l.linkType == t ensures l in ListLinks(links, Some(t)) {
      var i :| 0 <= i < |links| && links[i] == l;
    }
    forall l | l in ListLinks(links, Some(t)) ensures l in links && l.linkType == t {
      var r := ListLinks(links, Some(t));
      var i :| 0 <= i < |r| && r[i] == l;
    }
  }

  /**
   * `delete_link` removes every copy of the triple and keeps every other link;
   * the kept links stay in their relative order (the rebuild distributes over
   * appends), and deleting an absent triple changes nothing.
   */
  lemma DeleteLinkSpec(links: seq<Link>, more: seq<Link>, t: string, s: Value, d: Value)
    ensures forall l :: l in WithoutTriple(links, t, s, d) <==> l in links && !IsTriple(l, t, s, d)
    ensures WithoutTriple(links + more, t, s, d) == WithoutTriple(links, t, s, d) + WithoutTriple(more, t, s, d)
    ensures Link(t, s, d) !in links ==> WithoutTriple(links, t, s, d) == links
  {
    var keep := (l: Link) => !IsTriple(l, t, s, d);
    Seqs.FilterConcat(links, more, keep);
    forall l | l in links && keep(l) ensures l in WithoutTriple(links, t, s, d) {
      var i :| 0 <= i < |links| && links[i] == l;
    }
    forall l | l in WithoutTriple(links, t, s, d) ensures l in links && keep(l) {
      var r := WithoutTriple(links, t, s, d);
      var i :| 0 <= i < |r| && r[i] == l;
    }
    if Link(t, s, d) !in links {
      forall i | 0 <= i < |links| ensures keep(links[i]) {
        assert links[i] in links;
      }
      Seqs.FilterAll(links, keep);
    }
  }

  class InMemoryLinkStore {
    var links: seq<Link>

    constructor ()
      ensures links == []
    {
      links := [];
    }

    function List(t: Option<string>): seq<Link>
      reads this
    {
      ListLinks(links, t)
    }

    method AddLink(l: Link)
      modifies this
      ensures links == old(links) + [l]
    {
      links := links + [l];
    }

    method DeleteLink(t: string, s: Value, d: Value)
      modifies this
      ensures links == WithoutTriple(old(links), t, s, d)
    {
      links := WithoutTriple(links, t, s, d);
    }
  }
}
