/** Navigation highlighting (public/js/main.js): `initializeNavigation` and
    `updateActiveNavLink` both walk the sidebar links and mark as active
    exactly those whose `href` attribute is the current path. A link is plain
    data: its `href` (None when the attribute is absent) and whether its class
    list holds `active`. */
module Navigation {
  import opened Wrappers

  datatype NavLink = NavLink(href: Option<string>, active: bool)

  /** The links with `active` set from the current path. */
  function Highlighted(links: seq<NavLink>, path: string): seq<NavLink>
  {
    seq(|links|, i requires 0 <= i < |links| => NavLink(links[i].href, links[i].href == Some(path)))
  }

  /** After highlighting, a link is active exactly when its `href` equals the
      current path; no link is added, dropped, reordered or re-targeted. */
  lemma HighlightedActiveIff(links: seq<NavLink>, path: string)
    ensures |Highlighted(links, path)| == |links|
    ensures forall i :: 0 <= i < |links| ==>
      && Highlighted(links, path)[i].href == links[i].href
      && (Highlighted(links, path)[i].active <==> links[i].href == Some(path))
  {
  }

  /** Highlighting depends only on the hrefs and the path, so running it again
      changes nothing. */
  lemma HighlightedIdempotent(links: seq<NavLink>, path: string)
    ensures Highlighted(Highlighted(links, path), path) == Highlighted(links, path)
  {
  }

  /** A link without an `href` is never active. */
  lemma NoHrefNeverActive(links: seq<NavLink>, path: string, i: nat)
    requires i < |links| && links[i].href.None?
    ensures !Highlighted(links, path)[i].active
  {
  }

  /** `initializeNavigation()`: add `active` where the href matches the path,
      remove it elsewhere. */
  method InitializeNavigation(links: array<NavLink>, path: string)
    modifies links
    ensures links[..] == Highlighted(old(links[..]), path)
  {
    for i := 0 to links.Length
      invariant forall k :: 0 <= k < i ==> links[k] == NavLink(old(links[k]).href, old(links[k]).href == Some(path))
      invariant forall k :: i <= k < links.Length ==> links[k] == old(links[k])
    {
      if links[i].href == Some(path) {
        links[i] := links[i].(active := true);
      } else {
        links[i] := links[i].(active := false);
      }
    }
  }

  /** `updateActiveNavLink()`: remove `active` from every link, then add it
      back where the href matches the path. */
  method UpdateActiveNavLink(links: array<NavLink>, path: string)
    modifies links
    ensures links[..] == Highlighted(old(links[..]), path)
  {
    for i := 0 to links.Length
      invariant forall k :: 0 <= k < i ==> links[k] == NavLink(old(links[k]).href, old(links[k]).href == Some(path))
      invariant forall k :: i <= k < links.Length ==> links[k] == old(links[k])
    {
      links[i] := links[i].(active := false);
      if links[i].href == Some(path) {
        links[i] := links[i].(active := true);
      }
    }
  }

  /** The page-load listener runs both highlighters one after the other; the
      second finds nothing left to change, so the result is that of either one. */
  method OnPageLoad(links: array<NavLink>, path: string)
    modifies links
    ensures links[..] == Highlighted(old(links[..]), path)
  {
    InitializeNavigation(links, path);
    UpdateActiveNavLink(links, path);
    HighlightedIdempotent(old(links[..]), path);
  }
}
