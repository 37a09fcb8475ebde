/**
 * Batch review analysis: the request listing each venue's first five non-empty reviews,
 * and the map from venue name to sentiment, standout dishes, summary and highlights that
 * the service builds from the model's JSON reply, with one retry.
 */
module ReviewAnalysis {
  import opened Wrappers
  import opened Text
  import opened Models
  import opened LlmReply
  import opened Places

  /** Only the first five reviews of a venue are sent. */
  const TopReviews: nat := 5

  /** The number of attempts at the model call. */
  const MaxAttempts: nat := 2

  /** One venue of the request: its display name and its formatted review texts. */
  datatype ReviewEntry = ReviewEntry(name: string, reviews: seq<string>)

  /** A review is sent only if its text is present and non-empty. */
  predicate HasText(r: Review) {
    r.text.Some? && r.text.value != ""
  }

  /** `f"Rating: {rating}/5\n{text}"`, with an absent rating printed as 0. */
  function ReviewLine(r: Review): string {
    "Rating: " + IntToString(r.rating.GetOr(0)) + "/5\n" + r.text.GetOr("")
  }

  /** `reviews[:5]`. */
  function TopOf(reviews: seq<Review>): (r: seq<Review>)
    ensures |r| <= TopReviews && |r| <= |reviews| && r == reviews[..|r|]
    ensures |r| == if |reviews| < TopReviews then |reviews| else TopReviews
  {
    if |reviews| <= TopReviews then reviews else reviews[..TopReviews]
  }

  /** The formatted texts of the reviews that have text, in order. */
  function ReviewLines(rs: seq<Review>): (r: seq<string>)
    ensures |r| <= |rs|
    ensures r == [] <==> forall i :: 0 <= i < |rs| ==> !HasText(rs[i])
    ensures forall j :: 0 <= j < |r| ==> exists i :: 0 <= i < |rs| && HasText(rs[i]) && r[j] == ReviewLine(rs[i])
  {
    if rs == [] then []
    else
      var init := ReviewLines(rs[..|rs| - 1]);
      var last := rs[|rs| - 1];
      var r := init + (if HasText(last) then [ReviewLine(last)] else []);
      assert forall i :: 0 <= i < |rs| - 1 ==> rs[..|rs| - 1][i] == rs[i];
      r
  }

  /** The lines of a concatenation are the concatenation of the lines: review order is kept. */
  lemma {:induction false} ReviewLinesAppend(a: seq<Review>, b: seq<Review>)
    ensures ReviewLines(a + b) == ReviewLines(a) + ReviewLines(b)
    decreases |b|
  {
    if b == [] {
      assert a + b == a;
    } else {
      var b' := b[..|b| - 1];
      assert (a + b)[..|a + b| - 1] == a + b';
      assert (a + b)[|a + b| - 1] == b[|b| - 1];
      ReviewLinesAppend(a, b');
    }
  }

  /** One review contributes its line exactly when it has text. */
  lemma ReviewLinesSingle(r: Review)
    ensures ReviewLines([r]) == if HasText(r) then [ReviewLine(r)] else []
  {
    assert [r][..0] == [];
  }

  /** The request entry for one venue, or `None` when it has no review text among its first five. */
  function VenueEntry(v: Place): (r: Option<ReviewEntry>)
    ensures r.None? <==> forall i :: 0 <= i < |v.reviews| && i < TopReviews ==> !HasText(v.reviews[i])
    ensures r.Some? ==> r.value.name == v.displayName.GetOr("") && 1 <= |r.value.reviews| <= TopReviews
    ensures r.Some? ==> r.value.reviews == ReviewLines(TopOf(v.reviews))
  {
    if v.reviews == [] then None
    else
      var top := TopOf(v.reviews);
      var texts := ReviewLines(top);
      assert forall i :: 0 <= i < |top| ==> top[i] == v.reviews[i];
      if texts != [] then Some(ReviewEntry(v.displayName.GetOr(""), texts)) else None
  }

  /** The venues' request entries, in venue order. */
  function ReviewMessage(venues: seq<Place>): (r: seq<ReviewEntry>)
    ensures |r| <= |venues|
  {
    if venues == [] then []
    else
      var e := VenueEntry(venues[|venues| - 1]);
      ReviewMessage(venues[..|venues| - 1]) + (if e.Some? then [e.value] else [])
  }

  /** The inner loop of `_build_review_message`: the texts of one venue's top reviews. */
  method ReviewTexts(topReviews: seq<Review>) returns (reviewTexts: seq<string>)
    ensures reviewTexts == ReviewLines(topReviews)
  {
    reviewTexts := [];
    for j := 0 to |topReviews|
      invariant reviewTexts == ReviewLines(topReviews[..j])
    {
      assert topReviews[..j + 1][..j] == topReviews[..j];
      var review := topReviews[j];
      if HasText(review) {
        reviewTexts := reviewTexts + [ReviewLine(review)];
      }
    }
    assert topReviews[..|topReviews|] == topReviews;
  }

  /** `_build_review_message`, with the JSON text represented by the entries it encodes. */
  method BuildReviewMessage(venues: seq<Place>) returns (simplified: seq<ReviewEntry>)
    ensures simplified == ReviewMessage(venues)
  {
    simplified := [];
    for n := 0 to |venues|
      invariant simplified == ReviewMessage(venues[..n])
    {
      assert venues[..n + 1][..n] == venues[..n];
      var venue := venues[n];
      if venue.reviews == [] {
        continue;
      }
      var reviewTexts := ReviewTexts(TopOf(venue.reviews));
      if reviewTexts != [] {
        simplified := simplified + [ReviewEntry(venue.displayName.GetOr(""), reviewTexts)];
      }
    }
    assert venues[..|venues|] == venues;
  }

  /** The message of a concatenation is the concatenation of the messages: venue order is kept. */
  lemma {:induction false} ReviewMessageAppend(a: seq<Place>, b: seq<Place>)
    ensures ReviewMessage(a + b) == ReviewMessage(a) + ReviewMessage(b)
    decreases |b|
  {
    if b == [] {
      assert a + b == a;
    } else {
      var b' := b[..|b| - 1];
      assert (a + b)[..|a + b| - 1] == a + b';
      assert (a + b)[|a + b| - 1] == b[|b| - 1];
      ReviewMessageAppend(a, b');
    }
  }

  /** A single venue contributes its own entry, or nothing when it has no review text. */
  lemma ReviewMessageSingle(v: Place)
    ensures ReviewMessage([v]) == if VenueEntry(v).Some? then [VenueEntry(v).value] else []
  {
    assert [v][..0] == [];
  }

  /** `[v for v in venues if v.get("reviews")]`. */
  function WithReviews(venues: seq<Place>): (r: seq<Place>)
    ensures forall i :: 0 <= i < |r| ==> r[i].reviews != []
    ensures forall v :: v in r <==> v in venues && v.reviews != []
  {
    if venues == [] then []
    else
      var last := venues[|venues| - 1];
      var init := WithReviews(venues[..|venues| - 1]);
      assert forall v :: v in venues <==> v in venues[..|venues| - 1] || v == last;
      init + (if last.reviews != [] then [last] else [])
  }

  /** Leaving out the venues without reviews before building the message changes nothing. */
  lemma {:induction false} ReviewMessageWithReviews(venues: seq<Place>)
    ensures ReviewMessage(WithReviews(venues)) == ReviewMessage(venues)
  {
    if venues != [] {
      var init := venues[..|venues| - 1];
      var last := venues[|venues| - 1];
      ReviewMessageWithReviews(init);
      var kept := if last.reviews != [] then [last] else [];
      assert WithReviews(venues) == WithReviews(init) + kept;
      ReviewMessageAppend(WithReviews(init), kept);
      if last.reviews != [] {
        ReviewMessageSingle(last);
      } else {
        assert WithReviews(init) + kept == WithReviews(init);
      }
    }
  }

  /** The message is empty exactly when no venue has review text among its first five reviews. */
  lemma {:induction false} ReviewMessageEmpty(venues: seq<Place>)
    ensures ReviewMessage(venues) == [] <==> forall i :: 0 <= i < |venues| ==> VenueEntry(venues[i]).None?
  {
    if venues != [] {
      var init := venues[..|venues| - 1];
      ReviewMessageEmpty(init);
      assert forall i :: 0 <= i < |init| ==> init[i] == venues[i];
    }
  }

  /** One element of the parsed JSON array: an object with the expected keys, or something else. */
  datatype AnalysisItem =
    | AnalysisRecord(venueName: Option<string>, sentiment: Option<map<string, real>>,
                     standoutDishes: Option<seq<string>>, reviewSummary: Option<string>,
                     highlights: Option<seq<string>>)
    | NotAnObject

  /** The value stored per venue name. */
  datatype Analysis = Analysis(sentiment: map<string, real>, standoutDishes: seq<string>,
                               reviewSummary: Option<string>, highlights: seq<string>)

  /** The stored value of a record: absent sentiment, dishes and highlights become `{}`, `[]`, `[]`. */
  function ToAnalysis(item: AnalysisItem): Analysis
    requires item.AnalysisRecord?
  {
    Analysis(item.sentiment.GetOr(map[]), item.standoutDishes.GetOr([]), item.reviewSummary, item.highlights.GetOr([]))
  }

  /** The key a record is stored under; `""` for a record without a usable venue name, which is skipped. */
  function KeyOf(item: AnalysisItem): string
    requires item.AnalysisRecord?
  {
    item.venueName.GetOr("")
  }

  /** A name `k` is the key of item `i`. */
  predicate KeyedAt(items: seq<AnalysisItem>, i: int, k: string) {
    0 <= i < |items| && items[i].AnalysisRecord? && k != "" && KeyOf(items[i]) == k
  }

  /** The analysis map after a pass over some items, and whether the pass got through all of them. */
  datatype Fill = Fill(entries: map<string, Analysis>, ok: bool)

  /**
   * The loop over the parsed items, from the map `m`: a record with a non-empty name is stored
   * under it; anything other than an object raises, leaving what was written so far.
   */
  function ApplyItems(m: map<string, Analysis>, items: seq<AnalysisItem>): (r: Fill)
    ensures r.ok <==> forall i :: 0 <= i < |items| ==> items[i].AnalysisRecord?
    ensures m.Keys <= r.entries.Keys
    ensures forall k :: k in r.entries ==> k in m || exists i :: KeyedAt(items, i, k)
    decreases |items|
  {
    if items == [] then Fill(m, true)
    else if items[0].NotAnObject? then Fill(m, false)
    else
      var k := KeyOf(items[0]);
      var m' := if k != "" then m[k := ToAnalysis(items[0])] else m;
      var r := ApplyItems(m', items[1..]);
      assert forall i :: 0 <= i < |items| - 1 ==> items[1..][i] == items[i + 1];
      assert k != "" ==> KeyedAt(items, 0, k);
      assert forall k, i :: KeyedAt(items[1..], i, k) ==> KeyedAt(items, i + 1, k);
      r
  }

  /**
   * After a pass over records only, a name is a key exactly when it was one before or some record
   * carries it; the last record carrying it wins, and a name no record carries keeps its old value.
   */
  lemma {:induction false} ApplyItemsEntries(m: map<string, Analysis>, items: seq<AnalysisItem>, k: string)
    requires forall i :: 0 <= i < |items| ==> items[i].AnalysisRecord?
    ensures var r := ApplyItems(m, items).entries;
      && (k in r <==> k in m || exists i :: KeyedAt(items, i, k))
      && (forall i :: KeyedAt(items, i, k) && (forall j :: i < j < |items| ==> !KeyedAt(items, j, k))
                      ==> r[k] == ToAnalysis(items[i]))
      && ((forall i :: !KeyedAt(items, i, k)) && k in m ==> r[k] == m[k])
    decreases |items|
  {
    if items != [] {
      var k0 := KeyOf(items[0]);
      var m' := if k0 != "" then m[k0 := ToAnalysis(items[0])] else m;
      var tail := items[1..];
      ApplyItemsEntries(m', tail, k);
      assert ApplyItems(m, items) == ApplyItems(m', tail);
      forall i | 0 <= i < |tail| ensures KeyedAt(tail, i, k) <==> KeyedAt(items, i + 1, k) {
        assert tail[i] == items[i + 1];
      }
      var r := ApplyItems(m, items).entries;
      if exists i :: KeyedAt(items, i, k) {
        var i :| KeyedAt(items, i, k);
        if i > 0 {
          assert KeyedAt(tail, i - 1, k);
        }
        assert k in r;
      }
      forall i | KeyedAt(items, i, k) && (forall j :: i < j < |items| ==> !KeyedAt(items, j, k))
        ensures k in r && r[k] == ToAnalysis(items[i])
      {
        if i > 0 {
          assert KeyedAt(tail, i - 1, k);
          forall j | i - 1 < j < |tail| ensures !KeyedAt(tail, j, k) {
            assert !KeyedAt(items, j + 1, k);
          }
        } else {
          forall j | 0 <= j < |tail| ensures !KeyedAt(tail, j, k) {
            assert !KeyedAt(items, j + 1, k);
          }
        }
      }
      if (forall i :: !KeyedAt(items, i, k)) && k in m {
        assert !KeyedAt(items, 0, k);
        assert m'[k] == m[k];
        assert forall i :: !KeyedAt(tail, i, k);
      }
    }
  }

  /** `analyses` as the loop sees it: the parsed reply, or `None` when this attempt raised first. */
  function ParsedItems(reply: Reply, parse: string -> Option<seq<AnalysisItem>>): Option<seq<AnalysisItem>> {
    match ReplyPayload(reply)
    case None => None
    case Some(text) => parse(text)
  }

  /** One attempt from the map `m`: the map afterwards, and whether the attempt returned. */
  function Attempt(m: map<string, Analysis>, reply: Reply, parse: string -> Option<seq<AnalysisItem>>): (r: Fill)
    ensures ParsedItems(reply, parse).None? ==> r == Fill(m, false)
    ensures ParsedItems(reply, parse).Some? ==> r == ApplyItems(m, ParsedItems(reply, parse).value)
  {
    match ParsedItems(reply, parse)
    case None => Fill(m, false)
    case Some(items) => ApplyItems(m, items)
  }

  /** The result of the analysis: the map returned, and how many model calls were made. */
  datatype Run = Run(analyses: map<string, Analysis>, calls: nat)

  /** The retry loop from attempt `attempt` on, with the map `m` carried over from earlier attempts. */
  function RetryFrom(request: seq<ReviewEntry>, llm: (seq<ReviewEntry>, nat) -> Reply,
                     parse: string -> Option<seq<AnalysisItem>>, m: map<string, Analysis>, attempt: nat): (r: Run)
    requires attempt <= MaxAttempts
    ensures attempt <= r.calls <= MaxAttempts
    ensures m.Keys <= r.analyses.Keys
    decreases MaxAttempts - attempt
  {
    if attempt == MaxAttempts then Run(m, attempt)
    else
      var f := Attempt(m, llm(request, attempt), parse);
      if f.ok then Run(f.entries, attempt + 1)
      else RetryFrom(request, llm, parse, f.entries, attempt + 1)
  }

  /** A successful attempt ends the loop with its map. */
  lemma RetryDone(request: seq<ReviewEntry>, llm: (seq<ReviewEntry>, nat) -> Reply,
                  parse: string -> Option<seq<AnalysisItem>>, m: map<string, Analysis>, attempt: nat)
    requires attempt < MaxAttempts
    requires Attempt(m, llm(request, attempt), parse).ok
    ensures RetryFrom(request, llm, parse, m, attempt)
            == Run(Attempt(m, llm(request, attempt), parse).entries, attempt + 1)
  {
  }

  /** A failed attempt hands its map on to the next one. */
  lemma RetryStep(request: seq<ReviewEntry>, llm: (seq<ReviewEntry>, nat) -> Reply,
                  parse: string -> Option<seq<AnalysisItem>>, m: map<string, Analysis>, attempt: nat)
    requires attempt < MaxAttempts
    requires !Attempt(m, llm(request, attempt), parse).ok
    ensures RetryFrom(request, llm, parse, m, attempt)
            == RetryFrom(request, llm, parse, Attempt(m, llm(request, attempt), parse).entries, attempt + 1)
  {
  }

  /**
   * `analyze_reviews_with_ai(venues)` with the given API key, model and JSON parser: nothing is
   * called when no venue has reviews or the key is empty; otherwise at most two attempts.
   */
  function AnalyzeSpec(venues: seq<Place>, apiKey: string, llm: (seq<ReviewEntry>, nat) -> Reply,
                       parse: string -> Option<seq<AnalysisItem>>): (r: Run)
    ensures r.calls <= MaxAttempts
    ensures r.calls == 0 <==> WithReviews(venues) == [] || apiKey == ""
    ensures r.calls == 0 ==> r.analyses == map[]
  {
    var content := WithReviews(venues);
    if content == [] || apiKey == "" then Run(map[], 0)
    else RetryFrom(ReviewMessage(content), llm, parse, map[], 0)
  }

  /** The loop over the parsed items, writing into `analysisMap` in place. */
  method FillAnalyses(m: map<string, Analysis>, analyses: seq<AnalysisItem>)
    returns (analysisMap: map<string, Analysis>, ok: bool)
    ensures Fill(analysisMap, ok) == ApplyItems(m, analyses)
  {
    analysisMap := m;
    for i := 0 to |analyses|
      invariant ApplyItems(analysisMap, analyses[i..]) == ApplyItems(m, analyses)
    {
      assert analyses[i..][1..] == analyses[i + 1..];
      var analysis := analyses[i];
      if analysis.NotAnObject? {
        return analysisMap, false;
      }
      var venueName := KeyOf(analysis);
      if venueName != "" {
        analysisMap := analysisMap[venueName := ToAnalysis(analysis)];
      }
    }
    ok := true;
  }

  /**
   * One attempt on the model's reply: take its first text block, strip a code fence, parse it and
   * write the parsed items into the map; `ok` is false when the attempt raises.
   */
  method AnalysisAttempt(message: Reply, parse: string -> Option<seq<AnalysisItem>>, m: map<string, Analysis>)
    returns (analysisMap: map<string, Analysis>, ok: bool)
    ensures Fill(analysisMap, ok) == Attempt(m, message, parse)
  {
    var payload := ReplyPayload(message);
    if payload.None? {
      return m, false;
    }
    var analyses := parse(payload.value);
    if analyses.None? {
      return m, false;
    }
    analysisMap, ok := FillAnalyses(m, analyses.value);
  }

  /** The attempt loop of `analyze_reviews_with_ai` on a built request, all attempts sharing one map. */
  method RetryAnalysis(request: seq<ReviewEntry>, llm: (seq<ReviewEntry>, nat) -> Reply,
                       parse: string -> Option<seq<AnalysisItem>>)
    returns (analysisMap: map<string, Analysis>, calls: nat)
    ensures Run(analysisMap, calls) == RetryFrom(request, llm, parse, map[], 0)
  {
    analysisMap := map[];
    calls := 0;
    ghost var spec := RetryFrom(request, llm, parse, map[], 0);
    var attempt: nat := 0;
    while attempt < MaxAttempts
      invariant attempt <= MaxAttempts && calls == attempt
      invariant RetryFrom(request, llm, parse, analysisMap, attempt) == spec
      decreases MaxAttempts - attempt
    {
      ghost var before := analysisMap;
      var ok;
      analysisMap, ok := AnalysisAttempt(llm(request, attempt), parse, analysisMap);
      calls := calls + 1;
      if ok {
        RetryDone(request, llm, parse, before, attempt);
        return;
      }
      RetryStep(request, llm, parse, before, attempt);
      attempt := attempt + 1;
    }
  }

  /** `analyze_reviews_with_ai`: the guards, then up to two attempts sharing one map. */
  method AnalyzeReviews(venues: seq<Place>, apiKey: string, llm: (seq<ReviewEntry>, nat) -> Reply,
                        parse: string -> Option<seq<AnalysisItem>>)
    returns (analysisMap: map<string, Analysis>, calls: nat)
    ensures Run(analysisMap, calls) == AnalyzeSpec(venues, apiKey, llm, parse)
  {
    var venuesWithContent := WithReviews(venues);
    if venuesWithContent == [] || apiKey == "" {
      return map[], 0;
    }
    var request := BuildReviewMessage(venuesWithContent);
    analysisMap, calls := RetryAnalysis(request, llm, parse);
  }

  /** Every key of the result is a non-empty venue name that a record of some attempt's reply carried. */
  lemma AnalyzeKeys(venues: seq<Place>, apiKey: string, llm: (seq<ReviewEntry>, nat) -> Reply,
                    parse: string -> Option<seq<AnalysisItem>>, k: string)
    ensures var r := AnalyzeSpec(venues, apiKey, llm, parse);
      k in r.analyses ==>
        exists a, i :: 0 <= a < r.calls && ParsedItems(llm(ReviewMessage(WithReviews(venues)), a), parse).Some?
                       && KeyedAt(ParsedItems(llm(ReviewMessage(WithReviews(venues)), a), parse).value, i, k)
  {
    var request := ReviewMessage(WithReviews(venues));
    var r := AnalyzeSpec(venues, apiKey, llm, parse);
    if k in r.analyses {
      var f0 := Attempt(map[], llm(request, 0), parse);
      if k in f0.entries {
        var items := ParsedItems(llm(request, 0), parse).value;
        var i :| KeyedAt(items, i, k);
      } else {
        var f1 := Attempt(f0.entries, llm(request, 1), parse);
        var items := ParsedItems(llm(request, 1), parse).value;
        var i :| KeyedAt(items, i, k);
      }
    }
  }

  /**
   * When the first attempt returns a list of records, one call is made and the map holds, for each
   * non-empty name, the analysis of the last record carrying it, and nothing else.
   */
  lemma FirstAttemptResult(venues: seq<Place>, apiKey: string, llm: (seq<ReviewEntry>, nat) -> Reply,
                           parse: string -> Option<seq<AnalysisItem>>, k: string)
    requires WithReviews(venues) != [] && apiKey != ""
    requires var items := ParsedItems(llm(ReviewMessage(WithReviews(venues)), 0), parse);
      items.Some? && forall i :: 0 <= i < |items.value| ==> items.value[i].AnalysisRecord?
    ensures var items := ParsedItems(llm(ReviewMessage(WithReviews(venues)), 0), parse).value;
      var r := AnalyzeSpec(venues, apiKey, llm, parse);
      && r.calls == 1
      && (k in r.analyses <==> exists i :: KeyedAt(items, i, k))
      && (forall i :: KeyedAt(items, i, k) && (forall j :: i < j < |items| ==> !KeyedAt(items, j, k))
                      ==> r.analyses[k] == ToAnalysis(items[i]))
  {
    var items := ParsedItems(llm(ReviewMessage(WithReviews(venues)), 0), parse).value;
    ApplyItemsEntries(map[], items, k);
  }

  /** With no reviews anywhere nothing is sent and the map is empty. */
  lemma NoReviewsNoCall(venues: seq<Place>, apiKey: string, llm: (seq<ReviewEntry>, nat) -> Reply,
                        parse: string -> Option<seq<AnalysisItem>>)
    requires forall i :: 0 <= i < |venues| ==> venues[i].reviews == []
    ensures AnalyzeSpec(venues, apiKey, llm, parse) == Run(map[], 0)
  {
  }

  /** When neither attempt gets as far as a parsed list, both calls are made and the map is empty. */
  lemma BothAttemptsFail(venues: seq<Place>, apiKey: string, llm: (seq<ReviewEntry>, nat) -> Reply,
                         parse: string -> Option<seq<AnalysisItem>>)
    requires WithReviews(venues) != [] && apiKey != ""
    requires ParsedItems(llm(ReviewMessage(WithReviews(venues)), 0), parse).None?
    requires ParsedItems(llm(ReviewMessage(WithReviews(venues)), 1), parse).None?
    ensures AnalyzeSpec(venues, apiKey, llm, parse) == Run(map[], 2)
  {
  }

  /**
   * The map is shared by the two attempts: a first reply whose list breaks off after a named record
   * leaves that record's entry in the result, even though the retry fails as well.
   */
  lemma FailedAttemptLeaks(venues: seq<Place>, apiKey: string, llm: (seq<ReviewEntry>, nat) -> Reply,
                           parse: string -> Option<seq<AnalysisItem>>, text: string)
    requires WithReviews(venues) != [] && apiKey != ""
    requires llm(ReviewMessage(WithReviews(venues)), 0) == Message([TextBlock(text)])
    requires parse(StripCodeFence(text)) == Some([AnalysisRecord(Some("Cafe"), None, None, None, None), NotAnObject])
    requires llm(ReviewMessage(WithReviews(venues)), 1) == CallFailed
    ensures AnalyzeSpec(venues, apiKey, llm, parse) == Run(map["Cafe" := Analysis(map[], [], None, [])], 2)
  {
    var request := ReviewMessage(WithReviews(venues));
    var items := [AnalysisRecord(Some("Cafe"), None, None, None, None), NotAnObject];
    var written := map["Cafe" := Analysis(map[], [], None, [])];
    assert FirstText([TextBlock(text)]) == Some(text);
    assert ParsedItems(llm(request, 0), parse) == Some(items);
    assert items[1..] == [NotAnObject];
    assert ApplyItems(map[], items) == Fill(written, false);
    assert Attempt(map[], llm(request, 0), parse) == Fill(written, false);
    assert Attempt(written, llm(request, 1), parse) == Fill(written, false);
    assert RetryFrom(request, llm, parse, written, 1) == Run(written, 2);
  }
}
