/**
 * The API's record shapes and the alias generator that turns their snake_case field names
 * into the camelCase keys the client reads.
 */
module Schemas {
  import opened Wrappers

  const Underscore: char := '_'

  /** `name.split("_")`: the pieces between underscores, in order; always at least one. */
  function Split(s: string): (parts: seq<string>)
    ensures |parts| >= 1
  {
    if s == [] then [""]
    else
      var init := Split(s[..|s| - 1]);
      var c := s[|s| - 1];
      if c == Underscore then init + [""]
      else init[..|init| - 1] + [init[|init| - 1] + [c]]
  }

  /** `"_".join(parts)`. */
  function Join(parts: seq<string>): string
    requires |parts| >= 1
  {
    if |parts| == 1 then parts[0] else Join(parts[..|parts| - 1]) + [Underscore] + parts[|parts| - 1]
  }

  /** The number of underscores in `s`. */
  function Underscores(s: string): nat {
    if s == [] then 0 else Underscores(s[..|s| - 1]) + (if s[|s| - 1] == Underscore then 1 else 0)
  }

  predicate NoUnderscore(s: string) {
    forall j :: 0 <= j < |s| ==> s[j] != Underscore
  }

  /** Extending the last piece extends the joined string. */
  lemma JoinExtendLast(p: seq<string>, c: char)
    requires |p| >= 1
    ensures Join(p[..|p| - 1] + [p[|p| - 1] + [c]]) == Join(p) + [c]
  {
    var q := p[..|p| - 1] + [p[|p| - 1] + [c]];
    if |p| > 1 {
      assert q[..|q| - 1] == p[..|p| - 1];
    }
  }

  /** A new empty piece adds one underscore. */
  lemma JoinAppendEmpty(p: seq<string>)
    requires |p| >= 1
    ensures Join(p + [""]) == Join(p) + [Underscore]
  {
    var q := p + [""];
    assert q[..|q| - 1] == p;
  }

  /** Splitting on underscores and joining with them gives the name back. */
  lemma {:induction false} SplitJoin(s: string)
    ensures Join(Split(s)) == s
  {
    if s != [] {
      var init := s[..|s| - 1];
      var c := s[|s| - 1];
      assert s == init + [c];
      SplitJoin(init);
      var p := Split(init);
      if c != Underscore {
        assert Split(s) == p[..|p| - 1] + [p[|p| - 1] + [c]];
        JoinExtendLast(p, c);
      } else {
        assert Split(s) == p + [""];
        JoinAppendEmpty(p);
      }
    }
  }

  /** A name without underscores is a single piece. */
  lemma {:induction false} SplitNoUnderscore(s: string)
    requires NoUnderscore(s)
    ensures Split(s) == [s]
  {
    if s != [] {
      SplitNoUnderscore(s[..|s| - 1]);
      assert s[..|s| - 1] + [s[|s| - 1]] == s;
    }
  }

  /** Appending an underscore and an underscore-free piece adds exactly that piece. */
  lemma {:induction false} SplitAppend(a: string, w: string)
    requires NoUnderscore(w)
    ensures Split(a + [Underscore] + w) == Split(a) + [w]
    decreases |w|
  {
    if w == [] {
      assert (a + [Underscore] + w)[..|a + [Underscore] + w| - 1] == a;
    } else {
      var w' := w[..|w| - 1];
      var s := a + [Underscore] + w;
      assert s[..|s| - 1] == a + [Underscore] + w';
      SplitAppend(a, w');
      assert w' + [w[|w| - 1]] == w;
    }
  }

  /** ASCII `str.upper` of one character. */
  function Upper(c: char): (u: char)
    ensures u != Underscore <==> c != Underscore
  {
    if 'a' <= c <= 'z' then (c as int - 32) as char else c
  }

  /** ASCII `str.lower` of one character. */
  function Lower(c: char): (l: char)
    ensures l != Underscore <==> c != Underscore
  {
    if 'A' <= c <= 'Z' then (c as int + 32) as char else c
  }

  /** ASCII `str.lower` of a string. */
  function LowerAll(s: string): (r: string)
    ensures |r| == |s|
    ensures forall j :: 0 <= j < |s| ==> r[j] == Lower(s[j])
  {
    if s == [] then [] else [Lower(s[0])] + LowerAll(s[1..])
  }

  predicate IsUpperLetter(c: char) {
    'A' <= c <= 'Z'
  }

  predicate IsLetter(c: char) {
    'a' <= c <= 'z' || 'A' <= c <= 'Z'
  }

  /**
   * `w.capitalize()` on ASCII text: a leading letter becomes upper case, no later character is
   * upper case, every character is the same letter up to case, and anything but a letter is kept.
   */
  function Capitalize(w: string): (r: string)
    ensures |r| == |w|
    ensures w != [] && IsLetter(w[0]) ==> IsUpperLetter(r[0])
    ensures forall j :: 1 <= j < |r| ==> !IsUpperLetter(r[j])
    ensures forall j :: 0 <= j < |r| ==> Lower(r[j]) == Lower(w[j])
    ensures forall j :: 0 <= j < |r| && !IsLetter(w[j]) ==> r[j] == w[j]
    ensures NoUnderscore(w) ==> NoUnderscore(r)
  {
    if w == [] then [] else [Upper(w[0])] + LowerAll(w[1..])
  }

  /** `"".join(w.capitalize() for w in parts)`. */
  function CapitalizedConcat(parts: seq<string>): string {
    if parts == [] then [] else CapitalizedConcat(parts[..|parts| - 1]) + Capitalize(parts[|parts| - 1])
  }

  /** `_to_camel`: the first piece as it is, followed by every later piece capitalised. */
  function ToCamel(name: string): (r: string) {
    var parts := Split(name);
    parts[0] + CapitalizedConcat(parts[1..])
  }

  /** Capitalising one more piece appends its capitalisation. */
  lemma CapitalizedConcatSnoc(q: seq<string>, w: string)
    ensures CapitalizedConcat(q + [w]) == CapitalizedConcat(q) + Capitalize(w)
  {
    assert (q + [w])[..|q + [w]| - 1] == q;
  }

  /** The alias in terms of the pieces. */
  lemma ToCamelPieces(name: string, parts: seq<string>)
    requires Split(name) == parts
    ensures |parts| >= 1 && ToCamel(name) == parts[0] + CapitalizedConcat(parts[1..])
  {
  }

  /** Appending a piece to the pieces appends it capitalised to the alias's tail. */
  lemma PiecesAppend(p: seq<string>, w: string)
    requires |p| >= 1
    ensures (p + [w])[0] + CapitalizedConcat((p + [w])[1..]) == p[0] + CapitalizedConcat(p[1..]) + Capitalize(w)
  {
    assert (p + [w])[1..] == p[1..] + [w];
    CapitalizedConcatSnoc(p[1..], w);
  }

  /** Adding a further snake_case piece appends that piece capitalised. */
  lemma ToCamelAppend(a: string, w: string)
    requires NoUnderscore(w)
    ensures ToCamel(a + [Underscore] + w) == ToCamel(a) + Capitalize(w)
  {
    SplitAppend(a, w);
    var p := Split(a);
    ToCamelPieces(a, p);
    ToCamelPieces(a + [Underscore] + w, p + [w]);
    PiecesAppend(p, w);
  }

  /** Pieces without underscores capitalise to a string without underscores. */
  lemma {:induction false} CapitalizedConcatNoUnderscore(parts: seq<string>)
    requires forall i :: 0 <= i < |parts| ==> NoUnderscore(parts[i])
    ensures NoUnderscore(CapitalizedConcat(parts))
  {
    if parts != [] {
      CapitalizedConcatNoUnderscore(parts[..|parts| - 1]);
      assert NoUnderscore(Capitalize(parts[|parts| - 1]));
    }
  }

  /** No piece contains an underscore. */
  lemma {:induction false} SplitPiecesNoUnderscore(s: string)
    ensures forall i :: 0 <= i < |Split(s)| ==> NoUnderscore(Split(s)[i])
  {
    if s != [] {
      var init := s[..|s| - 1];
      var c := s[|s| - 1];
      SplitPiecesNoUnderscore(init);
      var p := Split(init);
      if c != Underscore {
        var last := p[|p| - 1] + [c];
        assert NoUnderscore(p[|p| - 1]);
        assert NoUnderscore(last) by {
          forall j | 0 <= j < |last| ensures last[j] != Underscore {
            if j < |last| - 1 {
              assert last[j] == p[|p| - 1][j];
            }
          }
        }
        var q := p[..|p| - 1] + [last];
        assert Split(s) == q;
        forall i | 0 <= i < |q| ensures NoUnderscore(q[i]) {
          if i < |q| - 1 {
            assert q[i] == p[i];
          }
        }
      } else {
        assert Split(s) == p + [""];
        forall i | 0 <= i < |p| + 1 ensures NoUnderscore((p + [""])[i]) {
          if i < |p| {
            assert (p + [""])[i] == p[i];
          }
        }
      }
    }
  }

  /** The camelCase name never contains an underscore. */
  lemma ToCamelNoUnderscore(name: string)
    ensures NoUnderscore(ToCamel(name))
  {
    var parts := Split(name);
    SplitPiecesNoUnderscore(name);
    assert NoUnderscore(parts[0]);
    assert forall i :: 0 <= i < |parts[1..]| ==> parts[1..][i] == parts[i + 1];
    CapitalizedConcatNoUnderscore(parts[1..]);
  }

  /** A name without underscores is its own alias. */
  lemma ToCamelIdentity(name: string)
    requires NoUnderscore(name)
    ensures ToCamel(name) == name
  {
    SplitNoUnderscore(name);
    assert Split(name)[1..] == [];
  }

  /** Converting twice is converting once. */
  lemma ToCamelIdempotent(name: string)
    ensures ToCamel(ToCamel(name)) == ToCamel(name)
  {
    ToCamelNoUnderscore(name);
    ToCamelIdentity(ToCamel(name));
  }

  /** Total length of some pieces, and of their capitalisations. */
  function TotalLength(parts: seq<string>): nat {
    if parts == [] then 0 else TotalLength(parts[..|parts| - 1]) + |parts[|parts| - 1]|
  }

  lemma {:induction false} CapitalizedConcatLength(parts: seq<string>)
    ensures |CapitalizedConcat(parts)| == TotalLength(parts)
  {
    if parts != [] {
      CapitalizedConcatLength(parts[..|parts| - 1]);
    }
  }

  /** The pieces of a name hold every character of it but the underscores. */
  lemma {:induction false} SplitLength(s: string)
    ensures TotalLength(Split(s)) + Underscores(s) == |s|
  {
    if s != [] {
      var init := s[..|s| - 1];
      SplitLength(init);
      var p := Split(init);
      if s[|s| - 1] == Underscore {
        assert (p + [""])[..|p|] == p;
      } else {
        var q := p[..|p| - 1] + [p[|p| - 1] + [s[|s| - 1]]];
        assert q[..|q| - 1] == p[..|p| - 1];
        assert TotalLength(p) == TotalLength(p[..|p| - 1]) + |p[|p| - 1]|;
      }
    }
  }

  lemma {:induction false} TotalLengthFirst(parts: seq<string>)
    requires |parts| >= 1
    ensures TotalLength(parts) == |parts[0]| + TotalLength(parts[1..])
  {
    if |parts| > 1 {
      TotalLengthFirst(parts[..|parts| - 1]);
      assert parts[..|parts| - 1][1..] == parts[1..][..|parts[1..]| - 1];
    } else {
      assert parts[1..] == [];
      assert parts[..0] == [];
    }
  }

  /** The alias is the name less its underscores (case mapping here keeps every length). */
  lemma ToCamelLength(name: string)
    ensures |ToCamel(name)| == |name| - Underscores(name)
  {
    var parts := Split(name);
    SplitLength(name);
    TotalLengthFirst(parts);
    CapitalizedConcatLength(parts[1..]);
  }

  /** Two underscore-free pieces: the first as it is, the second capitalised. */
  lemma ToCamelTwo(a: string, w: string)
    requires NoUnderscore(a) && NoUnderscore(w)
    ensures ToCamel(a + [Underscore] + w) == a + Capitalize(w)
  {
    ToCamelAppend(a, w);
    ToCamelIdentity(a);
  }

  /** Three underscore-free pieces: the first as it is, the later two capitalised. */
  lemma ToCamelThree(a: string, w: string, x: string)
    requires NoUnderscore(a) && NoUnderscore(w) && NoUnderscore(x)
    ensures ToCamel(a + [Underscore] + w + [Underscore] + x) == a + Capitalize(w) + Capitalize(x)
  {
    ToCamelAppend(a + [Underscore] + w, x);
    ToCamelTwo(a, w);
  }

  /** The pieces of `user_a_lat` give `userALat`. */
  lemma UserALatPieces(name: string)
    requires name == "user" + [Underscore] + "a" + [Underscore] + "lat"
    ensures ToCamel(name) == "userALat"
  {
    ToCamelThree("user", "a", "lat");
    assert Capitalize("a") == "A";
    assert LowerAll("at") == "at";
  }

  /** The session field `user_a_lat` is the client's `userALat`. */
  lemma ToCamelUserALat()
    ensures ToCamel("user_a_lat") == "userALat"
  {
    UserALatPieces("user_a_lat");
  }

  /** The pieces of `session_id` give `sessionId`. */
  lemma SessionIdPieces(name: string)
    requires name == "session" + [Underscore] + "id"
    ensures ToCamel(name) == "sessionId"
  {
    ToCamelTwo("session", "id");
    assert LowerAll("d") == "d";
  }

  /** The venue field `session_id` is the client's `sessionId`. */
  lemma ToCamelSessionId()
    ensures ToCamel("session_id") == "sessionId"
  {
    SessionIdPieces("session_id");
  }

  // Request bodies

  datatype CreateSessionRequest = CreateSessionRequest(lat: real, lng: real)
  datatype JoinSessionRequest = JoinSessionRequest(lat: real, lng: real, pinCode: Option<string>)
  datatype VoteRequest = VoteRequest(venueId: string, voter: string)

  // Response bodies

  datatype CreateSessionResponse = CreateSessionResponse(sessionId: string, shareUrl: string, pinCode: string)
  datatype JoinResponse = JoinResponse(success: bool)
  datatype ComputeResponse = ComputeResponse(success: bool)
  datatype VoteResponse = VoteResponse(allVotesIn: bool, winnerId: Option<string>)

}
