/** The independent check of quoted excerpts: a bounded window of every page that contains its quotation. */
module ExcerptWindow {
  import opened Runs

  const PER_SOURCE := 12_000
  const PACKET := 24_000
  const BATCH := 3
  const SHORTEST := 30

  /**
   The quotation comes normalized; `page` is the text of the retrieved page, or None when it could not be retrieved.
   */
  datatype Source = Source(url: string, excerpt: string, confidence: int)

  datatype Retrieval = Unavailable | Mismatch | Matched(context: string, start: int, truncated: bool)

  datatype Checked = Checked(url: string, confidence: int, retrieval: Retrieval)

  datatype ClaimStatus = Supported | Unverified | OtherStatus

  datatype Claim = Claim(status: ClaimStatus, urls: seq<string>)

  function Min(a: int, b: int): int {
    if a < b then a else b
  }

  function Max(a: int, b: int): int {
    if a < b then b else a
  }

  function ContextLimit(sources: nat): nat {
    Min(PER_SOURCE, PACKET / Max(1, sources))
  }

  predicate OccursAt(text: string, part: string, i: nat) {
    i + |part| <= |text| && text[i..i + |part|] == part
  }

  ghost predicate Occurs(text: string, part: string) {
    exists i: nat :: OccursAt(text, part, i)
  }

  /** The first occurrence at or after `from`, or -1. */
  function IndexFrom(text: string, part: string, from: nat): (r: int)
    requires from <= |text|
    ensures r == -1 ==> forall i: nat :: from <= i ==> !OccursAt(text, part, i)
    ensures r != -1 ==>
        from <= r && OccursAt(text, part, r) && forall i: nat :: from <= i < r ==> !OccursAt(text, part, i)
    decreases |text| - from
  {
    if OccursAt(text, part, from) then from
    else if from == |text| then -1
    else IndexFrom(text, part, from + 1)
  }

  function IndexOf(text: string, part: string): int {
    IndexFrom(text, part, 0)
  }

  /** The host's slice: both ends are cut to the text. */
  function Slice(text: string, start: nat, end: nat): string {
    if start >= |text| || end <= start then "" else if end > |text| then text[start..] else text[start..end]
  }

  function ContextStart(text: string, excerpt: string, limit: nat): nat {
    Max(0, Min(IndexOf(text, excerpt) - limit / 2, |text| - limit))
  }

  function Context(text: string, excerpt: string, limit: nat): string {
    var start := ContextStart(text, excerpt, limit);
    Slice(text, start, start + limit)
  }

  function Retrieve(source: Source, page: Option<string>, limit: nat): Retrieval {
    match page
    case None => Unavailable
    case Some(text) =>
      if |source.excerpt| < SHORTEST || IndexOf(text, source.excerpt) == -1 then Mismatch
      else
        var context := Context(text, source.excerpt, limit);
        Matched(context, ContextStart(text, source.excerpt, limit), |context| < |text|)
  }

  function Check(source: Source, page: Option<string>, limit: nat): Checked {
    var retrieval := Retrieve(source, page, limit);
    Checked(source.url, if retrieval.Matched? then Min(80, source.confidence) else 0, retrieval)
  }

  function CheckAll(sources: seq<Source>, pages: seq<Option<string>>, limit: nat): seq<Checked>
    requires |pages| == |sources|
  {
    seq(|sources|, i requires 0 <= i < |sources| => Check(sources[i], pages[i], limit))
  }

  function VerifiedUrls(checked: seq<Checked>): set<string> {
    set c <- checked | c.retrieval.Matched? :: c.url
  }

  function JudgeClaim(claim: Claim, verified: set<string>): Claim {
    if claim.status == Supported && (claim.urls == [] || !(forall u <- claim.urls :: u in verified))
    then claim.(status := Unverified) else claim
  }

  lemma CheckAllStep(sources: seq<Source>, pages: seq<Option<string>>, limit: nat, i: nat)
    requires |pages| == |sources| && i < |sources|
    ensures CheckAll(sources, pages, limit)[..i + 1] ==
        CheckAll(sources, pages, limit)[..i] + [Check(sources[i], pages[i], limit)]
  {
  }

  lemma VerifiedStep(checked: seq<Checked>, one: Checked)
    ensures VerifiedUrls(checked + [one]) == VerifiedUrls(checked) + if one.retrieval.Matched? then {one.url} else {}
  {
  }

  /** Three pages at a time; `pages[i]` is what the fetch for source i returns. */
  method VerifySourceExcerpts(sources: seq<Source>, pages: seq<Option<string>>, claims: seq<Claim>)
    returns (checked: seq<Checked>, judged: seq<Claim>)
    requires |pages| == |sources|
    ensures checked == CheckAll(sources, pages, ContextLimit(|sources|))
    ensures judged == seq(|claims|, i requires 0 <= i < |claims| => JudgeClaim(claims[i], VerifiedUrls(checked)))
  {
    var limit := ContextLimit(|sources|);
    var verified: set<string> := {};
    checked := [];
    var offset := 0;
    while offset < |sources|
      invariant 0 <= offset && |checked| == Min(offset, |sources|)
      invariant checked == CheckAll(sources, pages, limit)[..|checked|]
      invariant verified == VerifiedUrls(checked)
      decreases |sources| - offset
    {
      var end := Min(offset + BATCH, |sources|);
      for i := offset to end
        invariant |checked| == i
        invariant checked == CheckAll(sources, pages, limit)[..i]
        invariant verified == VerifiedUrls(checked)
      {
        var one := Check(sources[i], pages[i], limit);
        CheckAllStep(sources, pages, limit, i);
        VerifiedStep(checked, one);
        if one.retrieval.Matched? {
          verified := verified + {one.url};
        }
        checked := checked + [one];
      }
      offset := offset + BATCH;
    }
    judged := seq(|claims|, i requires 0 <= i < |claims| => JudgeClaim(claims[i], verified));
  }

  // ----- what the packet promises

  /**
   A recorded context is the exact slice of the page at its recorded start, as long as the page and the limit allow.
   */
  lemma ContextIsExactSlice(source: Source, page: Option<string>, limit: nat)
    requires Retrieve(source, page, limit).Matched?
    ensures var r, text := Retrieve(source, page, limit), page.value;
      && 0 <= r.start && r.start + |r.context| <= |text|
      && r.context == text[r.start..r.start + |r.context|]
      && |r.context| == Min(limit, |text|)
      && (r.truncated <==> r.context != text)
  {
  }

  function TotalContext(checked: seq<Checked>): nat {
    if checked == [] then 0
    else (if checked[0].retrieval.Matched? then |checked[0].retrieval.context| else 0) + TotalContext(checked[1..])
  }

  lemma {:induction false} TotalIsBounded(checked: seq<Checked>, limit: nat)
    requires forall i :: 0 <= i < |checked| && checked[i].retrieval.Matched? ==> |checked[i].retrieval.context| <= limit
    ensures TotalContext(checked) <= |checked| * limit
    decreases |checked|
  {
    if checked != [] {
      TotalIsBounded(checked[1..], limit);
      assert |checked| * limit == limit + |checked[1..]| * limit;
    }
  }

  lemma SharesFit(n: nat)
    ensures n * ContextLimit(n) <= PACKET
  {
  }

  /**
   Order and number of the sources survive the batches, confidence survives only a match and never above 80, and all
   contexts together stay within 24000.
   */
  lemma PacketIsBounded(sources: seq<Source>, pages: seq<Option<string>>)
    requires |pages| == |sources|
    ensures var checked := CheckAll(sources, pages, ContextLimit(|sources|));
      && |checked| == |sources|
      && (forall i :: 0 <= i < |sources| ==>
            && checked[i].url == sources[i].url
            && (checked[i].retrieval.Matched? ==>
                checked[i].confidence <= 80 && checked[i].confidence <= sources[i].confidence)
            && (!checked[i].retrieval.Matched? ==> checked[i].confidence == 0))
      && TotalContext(checked) <= PACKET
  {
    var limit := ContextLimit(|sources|);
    var checked := CheckAll(sources, pages, limit);
    forall i | 0 <= i < |checked| && checked[i].retrieval.Matched? ensures |checked[i].retrieval.context| <= limit {
      ContextIsExactSlice(sources[i], pages[i], limit);
    }
    TotalIsBounded(checked, limit);
    SharesFit(|sources|);
  }

  // ----- when the window shows the quotation

  /** Whatever the page, a found quotation of this length is inside its context. */
  ghost predicate AlwaysShown(limit: nat, length: nat) {
    forall text: string, excerpt: string ::
      |excerpt| == length && IndexOf(text, excerpt) != -1 ==> Occurs(Context(text, excerpt, limit), excerpt)
  }

  lemma ShortExcerptIsShown(text: string, excerpt: string, limit: nat)
    requires |excerpt| <= limit - limit / 2 && IndexOf(text, excerpt) != -1
    ensures Occurs(Context(text, excerpt, limit), excerpt)
  {
    var i := IndexOf(text, excerpt);
    var start := ContextStart(text, excerpt, limit);
    var context := Context(text, excerpt, limit);
    if excerpt == "" {
      assert OccursAt(context, excerpt, 0);
    } else {
      var a, end := i - start, Min(start + limit, |text|);
      assert start <= i && i + |excerpt| <= end;
      assert context == text[start..end];
      SlicesCompose(text, start, end, a, a + |excerpt|);
      assert OccursAt(context, excerpt, a);
    }
  }

  lemma SlicesCompose(text: string, start: nat, end: nat, a: nat, b: nat)
    requires start <= end <= |text| && a <= b <= end - start
    ensures text[start..end][a..b] == text[start + a..start + b]
  {
    var x, y := text[start..end][a..b], text[start + a..start + b];
    assert |x| == |y| && forall k :: 0 <= k < |x| ==> x[k] == y[k];
  }

  function Repeat(c: char, n: nat): string {
    seq(n, _ => c)
  }

  /** A page on which a quotation of `length` begins exactly `limit` characters in. */
  function Unlucky(limit: nat, length: nat): string {
    Repeat('a', limit) + Repeat('b', length) + Repeat('a', limit)
  }

  lemma UnluckyAt(limit: nat, length: nat, k: nat)
    requires k < |Unlucky(limit, length)|
    ensures |Unlucky(limit, length)| == 2 * limit + length
    ensures Unlucky(limit, length)[k] == (if limit <= k < limit + length then 'b' else 'a')
  {
  }

  lemma UnluckyIndex(limit: nat, length: nat)
    requires length > 0
    ensures IndexOf(Unlucky(limit, length), Repeat('b', length)) == limit
  {
    var text, excerpt := Unlucky(limit, length), Repeat('b', length);
    assert text[limit..limit + length] == excerpt;
    assert OccursAt(text, excerpt, limit);
    forall i: nat | i < limit ensures !OccursAt(text, excerpt, i) {
      UnluckyAt(limit, length, i);
      if i + length <= |text| {
        assert text[i..i + length][0] == text[i];
      }
    }
  }

  lemma LongExcerptIsCut(limit: nat, length: nat)
    requires length > limit - limit / 2
    ensures var text, excerpt := Unlucky(limit, length), Repeat('b', length);
      IndexOf(text, excerpt) != -1 && !Occurs(Context(text, excerpt, limit), excerpt)
  {
    var text, excerpt := Unlucky(limit, length), Repeat('b', length);
    UnluckyIndex(limit, length);
    var start := limit - limit / 2;
    var context := Context(text, excerpt, limit);
    assert context == text[start..start + limit];
    forall i: nat ensures !OccursAt(context, excerpt, i) {
      if i + length <= limit {
        UnluckyAt(limit, length, start + i);
        assert context[i..i + length][0] == context[i] == text[start + i];
      }
    }
  }

  /**
   The context shows every quotation of a given length, on every page, exactly when the quotation is at most half the
   limit, rounded up.
   */
  lemma AlwaysShownIff(limit: nat, length: nat)
    ensures AlwaysShown(limit, length) <==> length <= limit - limit / 2
  {
    if length <= limit - limit / 2 {
      forall text: string, excerpt: string | |excerpt| == length && IndexOf(text, excerpt) != -1
        ensures Occurs(Context(text, excerpt, limit), excerpt)
      {
        ShortExcerptIsShown(text, excerpt, limit);
      }
    } else {
      LongExcerptIsCut(limit, length);
      assert |Repeat('b', length)| == length;
    }
  }

  /** A claim stays supported exactly when it was, names at least one source, and every source it names was matched. */
  lemma SupportIsEarned(sources: seq<Source>, pages: seq<Option<string>>, claim: Claim)
    requires |pages| == |sources|
    ensures var limit := ContextLimit(|sources|);
      var judged := JudgeClaim(claim, VerifiedUrls(CheckAll(sources, pages, limit)));
      && (judged.status == Supported <==>
            claim.status == Supported && claim.urls != [] && forall u <- claim.urls :: MatchedSource(sources, pages, u))
      && (claim.status != Supported ==> judged == claim) && judged.urls == claim.urls
  {
    var limit := ContextLimit(|sources|);
    forall u ensures u in VerifiedUrls(CheckAll(sources, pages, limit)) <==> MatchedSource(sources, pages, u) {
      VerifiedIff(sources, pages, limit, u);
    }
  }

  /** Some source with this link was retrieved, and its page contains its quotation. */
  ghost predicate MatchedSource(sources: seq<Source>, pages: seq<Option<string>>, u: string)
    requires |pages| == |sources|
  {
    exists i :: 0 <= i < |sources| && sources[i].url == u && pages[i].Some?
      && |sources[i].excerpt| >= SHORTEST && Occurs(pages[i].value, sources[i].excerpt)
  }

  lemma VerifiedIff(sources: seq<Source>, pages: seq<Option<string>>, limit: nat, u: string)
    requires |pages| == |sources|
    ensures u in VerifiedUrls(CheckAll(sources, pages, limit)) <==> MatchedSource(sources, pages, u)
  {
    var checked := CheckAll(sources, pages, limit);
    if u in VerifiedUrls(checked) {
      var c :| c in checked && c.retrieval.Matched? && c.url == u;
      var i :| 0 <= i < |checked| && checked[i] == c;
      assert OccursAt(pages[i].value, sources[i].excerpt, IndexOf(pages[i].value, sources[i].excerpt));
    }
    if MatchedSource(sources, pages, u) {
      var i :| 0 <= i < |sources| && sources[i].url == u && pages[i].Some?
        && |sources[i].excerpt| >= SHORTEST && Occurs(pages[i].value, sources[i].excerpt);
      assert checked[i] in checked && checked[i].retrieval.Matched?;
    }
  }
}
