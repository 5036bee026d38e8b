/** Reading every comment of a post: page by page, complete or not at all; and the search for the one first comment. */
module CommentPages {
  import opened Runs
  import opened Sorting

  // ----- JavaScript numbers, as far as the page limit needs them

  datatype Number = NotANumber | Infinite(positive: bool) | Finite(value: real)

  predicate Clamped(limit: Number) {
    limit.NotANumber? || (limit.Finite? && 1.0 <= limit.value <= 100.0)
  }

  /** What is left of a page limit once it is clamped. */
  type Limit = n: Number | Clamped(n) witness NotANumber

  /** max(1, min(option ?? 50, 100)), which passes NaN on. */
  function MaxPages(option: Option<Number>): Limit {
    match option
    case None => Finite(50.0)
    case Some(NotANumber) => NotANumber
    case Some(Infinite(positive)) => Finite(if positive then 100.0 else 1.0)
    case Some(Finite(v)) => Finite(if v < 1.0 then 1.0 else if v > 100.0 then 100.0 else v)
  }

  predicate Below(page: nat, limit: Limit) {
    limit.Finite? && page as real < limit.value
  }

  predicate IsWhole(limit: Limit) {
    limit.Finite? && limit.value == limit.value.Floor as real
  }

  // ----- the provider

  datatype Link = Media | Replies(parent: string) | Url(url: string)

  /** `wellFormed`: the required fields are present with their types. */
  datatype Item = Item(wellFormed: bool, id: string, parent: Option<string>, author: Option<string>, body: string,
      at: Option<string>)

  datatype Answer = Refused | Page(items: seq<Item>, next: Option<Link>)

  datatype Comment = Comment(id: string, parent: Option<string>, author: Option<string>, body: string,
      at: Option<string>)

  /** The provider's answers; the host's collation, text normalisation and date parser. */
  datatype Host = Host(answer: Link -> Answer, collate: string -> int, normal: string -> string,
      parse: string -> Option<int>)

  function NonEmpty(s: Option<string>): Option<string> {
    if s == Some("") then None else s
  }

  function MapComment(item: Item, fallback: Option<string>): Option<Comment> {
    if !item.wellFormed then None
    else Some(Comment(item.id, NonEmpty(if item.parent.Some? then item.parent else fallback), NonEmpty(item.author),
        item.body, item.at))
  }

  function MapAll(items: seq<Item>, fallback: Option<string>): Option<seq<Comment>> {
    if items == [] then Some([])
    else
      var first := MapComment(items[0], fallback);
      var rest := MapAll(items[1..], fallback);
      if first.Some? && rest.Some? then Some([first.value] + rest.value) else None
  }

  function Prepend<T>(head: seq<T>, tail: Option<seq<T>>): Option<seq<T>> {
    if tail.None? then None else Some(head + tail.value)
  }

  lemma PrependJoins<T>(a: seq<T>, b: seq<T>, tail: Option<seq<T>>)
    ensures Prepend([], tail) == tail
    ensures Prepend(a, Prepend(b, tail)) == Prepend(a + b, tail)
  {
    if tail.Some? {
      assert [] + tail.value == tail.value;
      assert a + (b + tail.value) == (a + b) + tail.value;
    }
  }

  // ----- one edge

  /** What the paging loop computes from its state `next`, `page`. */
  function ReadFrom(h: Host, next: Option<Link>, page: nat, limit: Limit,
      fallback: Option<string>): Option<seq<Comment>>
    decreases if page <= 100 then 101 - page else 0
  {
    if next.None? || !Below(page, limit) then Some([])
    else match h.answer(next.value)
      case Refused => None
      case Page(items, after) =>
        var mapped := MapAll(items, fallback);
        if mapped.None? || (after.Some? && (page + 1) as real == limit.value) then None
        else Prepend(mapped.value, ReadFrom(h, after, page + 1, limit, fallback))
  }

  function ReadEdge(h: Host, first: Link, limit: Limit, fallback: Option<string>): Option<seq<Comment>>
  {
    ReadFrom(h, Some(first), 0, limit, fallback)
  }

  method ReadCommentEdge(h: Host, first: Link, option: Option<Number>, fallback: Option<string>)
      returns (edge: Option<seq<Comment>>)
    ensures edge == ReadEdge(h, first, MaxPages(option), fallback)
  {
    var limit := MaxPages(option);
    var comments: seq<Comment> := [];
    var next := Some(first);
    var page := 0;
    PrependJoins<Comment>([], [], ReadEdge(h, first, limit, fallback));
    while next.Some? && Below(page, limit)
      invariant page <= 100
      invariant ReadEdge(h, first, limit, fallback) == Prepend(comments, ReadFrom(h, next, page, limit, fallback))
      decreases 101 - page
    {
      var answer := h.answer(next.value);
      if answer.Refused? { return None; }
      var mapped := MapAll(answer.items, fallback);
      if mapped.None? { return None; }
      next := answer.next;
      if next.Some? && (page + 1) as real == limit.value { return None; }
      PrependJoins(comments, mapped.value, ReadFrom(h, next, page + 1, limit, fallback));
      comments := comments + mapped.value;
      page := page + 1;
    }
    assert comments + [] == comments;
    return Some(comments);
  }

  /** Reference: all items of an edge, if its last page comes within `pages` pages. */
  function WholeEdge(h: Host, link: Link, pages: nat): Option<seq<Item>>
    decreases pages
  {
    if pages == 0 then None
    else match h.answer(link)
      case Refused => None
      case Page(items, None) => Some(items)
      case Page(items, Some(after)) => Prepend(items, WholeEdge(h, after, pages - 1))
  }

  function WholeComments(h: Host, link: Link, pages: nat, fallback: Option<string>): Option<seq<Comment>> {
    var items := WholeEdge(h, link, pages);
    if items.None? then None else MapAll(items.value, fallback)
  }

  lemma {:induction false} MapAllAppends(a: seq<Item>, b: seq<Item>, fallback: Option<string>)
    ensures MapAll(a + b, fallback) ==
      if MapAll(a, fallback).None? then None else Prepend(MapAll(a, fallback).value, MapAll(b, fallback))
    decreases |a|
  {
    if a == [] {
      assert a + b == b;
      PrependJoins<Comment>([], [], MapAll(b, fallback));
    } else {
      assert (a + b)[1..] == a[1..] + b;
      MapAllAppends(a[1..], b, fallback);
      if MapAll(a, fallback).Some? {
        PrependJoins([MapComment(a[0], fallback).value], MapAll(a[1..], fallback).value, MapAll(b, fallback));
      }
    }
  }

  /** With a whole limit the loop returns the whole edge, or throws. */
  lemma {:induction false} ReadFromIsWhole(h: Host, link: Link, page: nat, limit: Limit, fallback: Option<string>)
    requires IsWhole(limit) && Below(page, limit)
    ensures ReadFrom(h, Some(link), page, limit, fallback) == WholeComments(h, link, limit.value.Floor - page, fallback)
    decreases 100 - page
  {
    var pages := limit.value.Floor - page;
    match h.answer(link)
    case Refused =>
    case Page(items, None) =>
      assert ReadFrom(h, None, page + 1, limit, fallback) == Some([]);
      if MapAll(items, fallback).Some? {
        assert MapAll(items, fallback).value + [] == MapAll(items, fallback).value;
      }
    case Page(items, Some(after)) =>
      assert (page + 1) as real == limit.value <==> pages == 1;
      if pages > 1 {
        ReadFromIsWhole(h, after, page + 1, limit, fallback);
        var rest := WholeEdge(h, after, pages - 1);
        if rest.Some? {
          MapAllAppends(items, rest.value, fallback);
        }
      }
  }

  /** A whole edge stays the same under a larger allowance. */
  lemma {:induction false} WholeEdgeIsStable(h: Host, link: Link, few: nat, many: nat)
    requires few <= many && WholeEdge(h, link, few).Some?
    ensures WholeEdge(h, link, many) == WholeEdge(h, link, few)
    decreases few
  {
    match h.answer(link)
    case Page(items, Some(after)) => WholeEdgeIsStable(h, after, few - 1, many - 1);
    case _ =>
  }

  /** Whatever the provider answers, a result is the whole edge. */
  ghost predicate OnlyWholeEdges(limit: Limit)
  {
    forall h: Host, link: Link, fallback: Option<string> :: ReadEdge(h, link, limit, fallback).Some? ==>
      exists pages :: ReadEdge(h, link, limit, fallback) == WholeComments(h, link, pages, fallback)
  }

  /** An endless edge: every page is empty and leads to itself. */
  const ENDLESS := Host(link => Page([], Some(link)), s => 0, s => s, s => None)

  lemma {:induction false} EndlessEdge(pages: nat)
    ensures WholeEdge(ENDLESS, Media, pages).None?
  {
    if pages > 0 {
      EndlessEdge(pages - 1);
    }
  }

  lemma {:induction false} FractionReadsOn(page: nat, limit: Limit)
    requires !IsWhole(limit)
    ensures ReadFrom(ENDLESS, Some(Media), page, limit, None) == Some([])
    decreases if page <= 100 then 101 - page else 0
  {
    if Below(page, limit) {
      assert (page + 1) as real != limit.value by {
        assert ((page + 1) as real).Floor == page + 1;
      }
      FractionReadsOn(page + 1, limit);
      var none: seq<Comment> := [];
      assert none + none == none;
    }
  }

  lemma WholeLimitIff(limit: Limit)
    ensures OnlyWholeEdges(limit) <==> IsWhole(limit)
  {
    if IsWhole(limit) {
      forall h: Host, link: Link, fallback: Option<string>
        ensures ReadEdge(h, link, limit, fallback) == WholeComments(h, link, limit.value.Floor, fallback)
      {
        ReadFromIsWhole(h, link, 0, limit, fallback);
      }
    } else {
      FractionReadsOn(0, limit);
      assert ReadEdge(ENDLESS, Media, limit, None).Some?;
      forall pages ensures WholeComments(ENDLESS, Media, pages, None).None? {
        EndlessEdge(pages);
      }
    }
  }

  /**
   The paging loop is complete-or-throw exactly when the option is absent, a whole number, or beyond the clamp; a
   fraction between 1 and 100, or NaN, silently cuts an edge short.
   */
  lemma CompleteOrThrowIff(option: Option<Number>)
    ensures OnlyWholeEdges(MaxPages(option)) <==>
      match option
      case None => true
      case Some(NotANumber) => false
      case Some(Infinite(_)) => true
      case Some(Finite(v)) => v <= 1.0 || v >= 100.0 || v == v.Floor as real
  {
    WholeLimitIff(MaxPages(option));
  }

  // ----- the top edge and the edge of every parent

  function AllReplies(h: Host, parents: seq<Comment>, limit: Limit): Option<seq<Comment>>
  {
    if parents == [] then Some([])
    else
      var first := ReadEdge(h, Replies(parents[0].id), limit, Some(parents[0].id));
      if first.None? then None else Prepend(first.value, AllReplies(h, parents[1..], limit))
  }

  /** Earlier first, then by id; the comparison that the comments are sorted with. */
  function Earlier(h: Host): (Comment, Comment) -> bool {
    (a: Comment, b: Comment) =>
      var x, y := h.collate(a.at.GetOr("")), h.collate(b.at.GetOr(""));
      x < y || (x == y && h.collate(a.id) < h.collate(b.id))
  }

  function Reading(h: Host, limit: Limit): Option<seq<Comment>>
  {
    var top := ReadEdge(h, Media, limit, None);
    if top.None? then None else Assemble(h, top.value, AllReplies(h, top.value, limit))
  }

  function Assemble(h: Host, top: seq<Comment>, replies: Option<seq<Comment>>): Option<seq<Comment>> {
    if replies.None? then None else Some(Sort(Earlier(h), top + replies.value))
  }

  /** One more parent of the list. */
  lemma AllRepliesStep(h: Host, parents: seq<Comment>, i: nat, limit: Limit, gathered: seq<Comment>)
    requires i < |parents|
    ensures var edge := ReadEdge(h, Replies(parents[i].id), limit, Some(parents[i].id));
      Prepend(gathered, AllReplies(h, parents[i..], limit)) ==
        if edge.None? then None else Prepend(gathered + edge.value, AllReplies(h, parents[i + 1..], limit))
  {
    assert parents[i..][1..] == parents[i + 1..] && parents[i..][0] == parents[i];
    var edge := ReadEdge(h, Replies(parents[i].id), limit, Some(parents[i].id));
    if edge.Some? {
      PrependJoins(gathered, edge.value, AllReplies(h, parents[i + 1..], limit));
    }
  }

  method ReadComments(h: Host, option: Option<Number>) returns (read: Option<seq<Comment>>)
    ensures read == Reading(h, MaxPages(option))
  {
    var top := ReadCommentEdge(h, Media, option, None);
    if top.None? { return None; }
    var replies := ReadReplies(h, top.value, option);
    if replies.None? { return None; }
    return Some(Sort(Earlier(h), top.value + replies.value));
  }

  method ReadReplies(h: Host, parents: seq<Comment>, option: Option<Number>) returns (replies: Option<seq<Comment>>)
    ensures replies == AllReplies(h, parents, MaxPages(option))
  {
    ghost var limit := MaxPages(option);
    var comments: seq<Comment> := [];
    assert parents[0..] == parents;
    PrependJoins<Comment>([], [], AllReplies(h, parents, limit));
    for i := 0 to |parents|
      invariant AllReplies(h, parents, limit) == Prepend(comments, AllReplies(h, parents[i..], limit))
    {
      var edge := ReadCommentEdge(h, Replies(parents[i].id), option, Some(parents[i].id));
      AllRepliesStep(h, parents, i, limit, comments);
      if edge.None? { return None; }
      comments := comments + edge.value;
    }
    assert comments + [] == comments;
    return Some(comments);
  }

  /** Reference: the replies of all parents, each edge whole. */
  function WholeReplies(h: Host, parents: seq<Comment>, pages: nat): Option<seq<Comment>> {
    if parents == [] then Some([])
    else
      var first := WholeComments(h, Replies(parents[0].id), pages, Some(parents[0].id));
      if first.None? then None else Prepend(first.value, WholeReplies(h, parents[1..], pages))
  }

  lemma {:induction false} RepliesAreWhole(h: Host, parents: seq<Comment>, limit: Limit)
    requires IsWhole(limit)
    ensures AllReplies(h, parents, limit) == WholeReplies(h, parents, limit.value.Floor)
    decreases |parents|
  {
    if parents != [] {
      ReadFromIsWhole(h, Replies(parents[0].id), 0, limit, Some(parents[0].id));
      RepliesAreWhole(h, parents[1..], limit);
    }
  }

  ghost predicate IsComplete(h: Host, limit: Limit)
    requires IsWhole(limit)
  {
    var pages := limit.value.Floor;
    CompleteFor(h, pages, WholeComments(h, Media, pages, None), Reading(h, limit))
  }

  /**
   With a whole limit, the comments are a sorted permutation of the top edge and of every parent's reply edge, each read
   to its last page; if one of them is not, nothing is returned.
   */
  lemma ReadingIsComplete(h: Host, limit: Limit)
    requires IsWhole(limit)
    ensures IsComplete(h, limit)
  {
    ReadFromIsWhole(h, Media, 0, limit, None);
    var top := WholeComments(h, Media, limit.value.Floor, None);
    assert ReadEdge(h, Media, limit, None) == top;
    if top.Some? {
      RepliesAreWhole(h, top.value, limit);
      var replies := WholeReplies(h, top.value, limit.value.Floor);
      assert Reading(h, limit) == Assemble(h, top.value, replies);
      AssembleIsComplete(h, limit.value.Floor, top.value);
    }
  }

  lemma AssembleIsComplete(h: Host, pages: nat, top: seq<Comment>)
    ensures CompleteFor(h, pages, Some(top), Assemble(h, top, WholeReplies(h, top, pages)))
  {
    AssembleSorts(h, top, WholeReplies(h, top, pages));
  }

  lemma AssembleSorts(h: Host, top: seq<Comment>, replies: Option<seq<Comment>>)
    ensures replies.Some? ==>
      && Sorted(Earlier(h), Assemble(h, top, replies).value)
      && multiset(Assemble(h, top, replies).value) == multiset(top) + multiset(replies.value)
  {
    if replies.Some? {
      SortPermutes(Earlier(h), top + replies.value);
      SortSorts(Earlier(h), top + replies.value);
    }
  }

  ghost predicate CompleteFor(h: Host, pages: nat, top: Option<seq<Comment>>, read: Option<seq<Comment>>) {
    if top.None? || WholeReplies(h, top.value, pages).None? then read.None?
    else
      && read.Some?
      && Sorted(Earlier(h), read.value)
      && multiset(read.value) == multiset(top.value) + multiset(WholeReplies(h, top.value, pages).value)
  }

  /**
   A mapped comment carries a parent exactly when the provider named a non-empty one, or named none and the edge has a
   non-empty parent.
   */
  lemma {:induction false} ParentsCarried(items: seq<Item>, fallback: Option<string>, k: nat)
    requires MapAll(items, fallback).Some? && k < |items|
    ensures |MapAll(items, fallback).value| == |items|
    ensures var c := MapAll(items, fallback).value[k];
      && c.id == items[k].id && c.body == items[k].body && c.at == items[k].at
      && (c.parent.Some? <==>
          items[k].parent != Some("") && (items[k].parent.None? ==> fallback.Some? && fallback.value != ""))
      && (c.parent.Some? ==> c.parent == if items[k].parent.Some? then items[k].parent else fallback)
    decreases |items|
  {
    if k > 0 {
      ParentsCarried(items[1..], fallback, k - 1);
    } else if |items| > 1 {
      ParentsCarried(items[1..], fallback, 0);
    }
  }

  // ----- the search for the first comment

  datatype Wanted = Wanted(account: string, body: string, id: Option<string>, earliest: string)

  datatype Observation = ReadFailed | Matched(id: string) | NotFound | Ambiguous

  predicate IsMatch(h: Host, w: Wanted, c: Comment) {
    && c.parent.None?
    && c.author == Some(w.account)
    && h.normal(c.body) == h.normal(w.body)
    && (NonEmpty(w.id).None? || c.id == w.id.value)
    && (NonEmpty(c.at).None? ||
        (h.parse(c.at.value).Some? && h.parse(w.earliest).Some?
            && h.parse(c.at.value).value >= h.parse(w.earliest).value - 60_000))
  }

  function Matches(h: Host, w: Wanted, comments: seq<Comment>): seq<Comment> {
    if comments == [] then []
    else (if IsMatch(h, w, comments[0]) then [comments[0]] else []) + Matches(h, w, comments[1..])
  }

  function InspectFirstComment(h: Host, limit: Limit, w: Wanted): Observation
  {
    var read := Reading(h, limit);
    if read.None? then ReadFailed
    else
      var matches := Matches(h, w, read.value);
      if |matches| == 1 then Matched(matches[0].id) else if |matches| > 1 then Ambiguous else NotFound
  }

  ghost predicate OnlyMatch(h: Host, w: Wanted, comments: seq<Comment>, k: nat) {
    && k < |comments|
    && forall i :: 0 <= i < |comments| ==> (IsMatch(h, w, comments[i]) <==> i == k)
  }

  lemma {:induction false} MatchesCount(h: Host, w: Wanted, comments: seq<Comment>)
    ensures |Matches(h, w, comments)| == 0 <==> forall i :: 0 <= i < |comments| ==> !IsMatch(h, w, comments[i])
    ensures |Matches(h, w, comments)| == 1 <==> exists k: nat :: OnlyMatch(h, w, comments, k)
    ensures forall k: nat :: OnlyMatch(h, w, comments, k) ==> Matches(h, w, comments) == [comments[k]]
    decreases |comments|
  {
    if comments != [] {
      var rest := comments[1..];
      MatchesCount(h, w, rest);
      assert forall i :: 0 <= i < |rest| ==> rest[i] == comments[i + 1];
      if IsMatch(h, w, comments[0]) {
        if |Matches(h, w, rest)| == 0 {
          assert OnlyMatch(h, w, comments, 0);
        }
      } else {
        assert forall k: nat :: 1 <= k && OnlyMatch(h, w, comments, k) ==> OnlyMatch(h, w, rest, k - 1);
        if j: nat :| OnlyMatch(h, w, rest, j) {
          assert OnlyMatch(h, w, comments, j + 1);
        }
      }
    }
  }

  /**
   A match means: the whole comment list was read and holds exactly one top-level comment of the account with that text,
   and a checkpointed id is that comment's id.
   */
  lemma MatchedIsUnique(h: Host, limit: Limit, w: Wanted, id: string)
    ensures InspectFirstComment(h, limit, w) == Matched(id) <==>
      Reading(h, limit).Some?
          && exists k: nat :: OnlyMatch(h, w, Reading(h, limit).value, k) && Reading(h, limit).value[k].id == id
    ensures InspectFirstComment(h, limit, w).Matched? && NonEmpty(w.id).Some? ==>
        InspectFirstComment(h, limit, w) == Matched(w.id.value)
    ensures InspectFirstComment(h, limit, w) == NotFound <==>
      Reading(h, limit).Some? && forall c :: c in Reading(h, limit).value ==> !IsMatch(h, w, c)
  {
    if Reading(h, limit).Some? {
      MatchesCount(h, w, Reading(h, limit).value);
    }
  }
}
