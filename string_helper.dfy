/** The string searches of string_helper.py, together with the Python string
    built-ins (`str.index`, `str.split`, `str.replace`) that the scraping code
    relies on. Strings are sequences of characters. */
module StringHelper {
  import opened Outcomes

  /** The exceptions `get_index` can raise. */
  datatype SearchError =
    | SourceNone        // Exception("Source None")
    | SearchStringNone  // Exception("SearchString None")
    | NotFound          // ValueError raised by str.index

  /** `sub` occurs in `s` starting at position `i`. */
  predicate OccursAt(s: string, sub: string, i: int) {
    0 <= i && i + |sub| <= |s| && s[i..i + |sub|] == sub
  }

  /** Python's `sub in s`. */
  predicate Contains(s: string, sub: string) {
    exists i | 0 <= i <= |s| :: OccursAt(s, sub, i)
  }

  /** Python's `s.index(sub, i)` for a start position `i` that is not
      negative: the first occurrence at or after `i`, or `None` where
      Python raises ValueError. */
  function FindFrom(s: string, sub: string, i: nat): (r: Option<nat>)
    ensures r.Some? ==> i <= r.value && OccursAt(s, sub, r.value)
    ensures r.Some? ==> forall k :: i <= k < r.value ==> !OccursAt(s, sub, k)
    ensures r.None? ==> forall k :: i <= k ==> !OccursAt(s, sub, k)
    decreases |s| - i
  {
    if i + |sub| > |s| then None
    else if s[i..i + |sub|] == sub then Some(i)
    else FindFrom(s, sub, i + 1)
  }

  /** Python's treatment of a start index: a negative one counts from the
      end and is clamped at 0. */
  function StartPosition(start: int, length: nat): (p: nat)
    ensures start >= 0 ==> p == start
    ensures start < 0 ==> p <= length
  {
    if start >= 0 then start
    else if length + start >= 0 then length + start
    else 0
  }

  /** `get_index(source, search_string, start, add_end_ouf_found_string)`:
      the first index at or after `start` where `search_string` occurs in
      `source`, moved past the match when the flag is set. */
  function GetIndex(source: Option<string>, searchString: Option<string>, start: int, addEnd: bool)
    : (r: Result<int, SearchError>)
    ensures source.None? <==> r == Err(SourceNone)
    ensures source.Some? && searchString.None? <==> r == Err(SearchStringNone)
    ensures source.Some? && searchString.Some? ==>
      var src, sub, from := source.value, searchString.value, StartPosition(start, |source.value|);
      && (r.Ok? <==> exists k :: from <= k && OccursAt(src, sub, k))
      && (r.Ok? ==>
            var found := if addEnd then r.value - |sub| else r.value;
            && from <= found && OccursAt(src, sub, found)
            && (forall k :: from <= k < found ==> !OccursAt(src, sub, k)))
      && (r.Err? ==> r.error == NotFound)
    ensures r.Ok? && start >= 0 ==> r.value >= start
    ensures r.Ok? && addEnd ==> r.value <= |source.value|
  {
    if source.None? then Err(SourceNone)
    else if searchString.None? then Err(SearchStringNone)
    else
      var sub := searchString.value;
      match FindFrom(source.value, sub, StartPosition(start, |source.value|))
      case None => Err(NotFound)
      case Some(i) => Ok(if addEnd then i + |sub| else i)
  }

  /** Python's `s.split(sep)` for a non-empty separator: the pieces between
      the leftmost non-overlapping occurrences of `sep`. */
  function Split(s: string, sep: string): (pieces: seq<string>)
    requires |sep| > 0
    ensures |pieces| >= 1
    decreases |s|
  {
    match FindFrom(s, sep, 0)
    case None => [s]
    case Some(i) => [s[..i]] + Split(s[i + |sep|..], sep)
  }

  /** Python's `sep.join(pieces)`. */
  function Join(pieces: seq<string>, sep: string): string
    requires |pieces| >= 1
  {
    if |pieces| == 1 then pieces[0] else pieces[0] + sep + Join(pieces[1..], sep)
  }

  /** Splitting loses nothing: joining the pieces with the separator gives
      back the string. */
  lemma {:induction false} SplitJoin(s: string, sep: string)
    requires |sep| > 0
    ensures Join(Split(s, sep), sep) == s
    decreases |s|
  {
    match FindFrom(s, sep, 0)
    case None =>
    case Some(i) =>
      var rest := s[i + |sep|..];
      SplitJoin(rest, sep);
      SplitAt(s, sep, i);
      assert OccursAt(s, sep, i);
      JoinAround(s, sep, i, Split(rest, sep));
  }

  /** One step of `split`: the piece before the first separator, then the
      split of the rest. */
  lemma {:induction false} SplitAt(s: string, sep: string, i: nat)
    requires |sep| > 0 && FindFrom(s, sep, 0) == Some(i)
    ensures Split(s, sep) == [s[..i]] + Split(s[i + |sep|..], sep)
  {
  }

  /** A string is its part before `i`, the separator found at `i`, and
      the join of whatever pieces give back the rest. */
  lemma {:induction false} JoinAround(s: string, sep: string, i: nat, pieces: seq<string>)
    requires i + |sep| <= |s| && s[i..i + |sep|] == sep
    requires |pieces| >= 1 && Join(pieces, sep) == s[i + |sep|..]
    ensures Join([s[..i]] + pieces, sep) == s
  {
    JoinCons(s[..i], pieces, sep);
    SliceThree(s, i, i + |sep|);
  }

  /** Joining a list that starts with `a` puts `a` and a separator first. */
  lemma {:induction false} JoinCons(a: string, pieces: seq<string>, sep: string)
    requires |pieces| >= 1
    ensures Join([a] + pieces, sep) == a + sep + Join(pieces, sep)
  {
    assert ([a] + pieces)[1..] == pieces;
  }

  /** Cutting a sequence at `i` and `j` and gluing the parts back gives it
      back. */
  lemma {:induction false} SliceThree<T>(s: seq<T>, i: nat, j: nat)
    requires i <= j <= |s|
    ensures s == s[..i] + s[i..j] + s[j..]
  {
  }

  /** No piece of a split contains the separator. */
  lemma {:induction false} SplitPiecesFree(s: string, sep: string)
    requires |sep| > 0
    ensures forall k :: 0 <= k < |Split(s, sep)| ==> !Contains(Split(s, sep)[k], sep)
    decreases |s|
  {
    match FindFrom(s, sep, 0)
    case None =>
      NoOccurrenceNoContains(s, sep, |s|);
    case Some(i) =>
      var rest := s[i + |sep|..];
      SplitPiecesFree(rest, sep);
      NoOccurrenceNoContains(s, sep, i);
      SplitAt(s, sep, i);
      ConsFree(s[..i], Split(rest, sep), sep);
  }

  /** Putting a piece free of `sep` in front of pieces free of it. */
  lemma {:induction false} ConsFree(p: string, pieces: seq<string>, sep: string)
    requires !Contains(p, sep)
    requires forall k :: 0 <= k < |pieces| ==> !Contains(pieces[k], sep)
    ensures forall k :: 0 <= k < |[p] + pieces| ==> !Contains(([p] + pieces)[k], sep)
  {
    forall k | 0 <= k < |[p] + pieces| ensures !Contains(([p] + pieces)[k], sep) {
      if k > 0 { assert ([p] + pieces)[k] == pieces[k - 1]; }
    }
  }

  /** A prefix `s[..n]` holds no occurrence when `s` has none before `n`. */
  lemma {:induction false} NoOccurrenceNoContains(s: string, sub: string, n: nat)
    requires |sub| > 0 && n <= |s|
    requires forall k :: 0 <= k < n ==> !OccursAt(s, sub, k)
    ensures !Contains(s[..n], sub)
  {
    forall k | 0 <= k <= n && OccursAt(s[..n], sub, k) ensures false {
      assert s[..n][k..k + |sub|] == s[k..k + |sub|];
      assert OccursAt(s, sub, k);
    }
  }

  /** Python's `s.replace(c, with)` for a one-character `c`. */
  function ReplaceChar(s: string, c: char, with: string): (r: string)
    ensures |with| == 1 ==> |r| == |s|
    ensures |with| == 1 ==> forall i :: 0 <= i < |s| ==> r[i] == if s[i] == c then with[0] else s[i]
    ensures c !in with ==> c !in r
    ensures forall x :: x in r ==> x in s || x in with
  {
    if s == [] then []
    else (if s[0] == c then with else [s[0]]) + ReplaceChar(s[1..], c, with)
  }

  /** Each occurrence of `c` is replaced by `with`, and nothing else
      changes length: for an empty `with` the result is shorter by exactly
      the number of `c`s. */
  lemma {:induction false} ReplaceLength(s: string, c: char, with: string)
    ensures |ReplaceChar(s, c, with)| == |s| + multiset(s)[c] * (|with| - 1)
    decreases |s|
  {
    if s != [] {
      var t := s[1..];
      ReplaceLength(t, c, with);
      CountCons(s, c);
      var m, w := multiset(t)[c], |with| - 1;
      assert |ReplaceChar(s, c, with)| == |if s[0] == c then with else [s[0]]| + |ReplaceChar(t, c, with)|;
      if s[0] == c {
        MulSucc(m, w);
      }
    }
  }

  /** The number of `c`s in a non-empty string: its head's, then its tail's. */
  lemma {:induction false} CountCons(s: string, c: char)
    requires s != []
    ensures multiset(s)[c] == (if s[0] == c then 1 else 0) + multiset(s[1..])[c]
  {
    assert s == [s[0]] + s[1..];
  }

  /** One more occurrence adds one more length change. */
  lemma {:induction false} MulSucc(m: int, w: int)
    ensures (m + 1) * w == m * w + w
  {
  }

  /** `replace` is Python's own definition of it: the pieces between the
      occurrences of `c`, joined with `with`. So every other character is
      kept, in order, and for an empty `with` exactly the `c`s are
      deleted. */
  lemma {:induction false} ReplaceIsJoinSplit(s: string, c: char, with: string)
    ensures ReplaceChar(s, c, with) == Join(Split(s, [c]), with)
    decreases |s|
  {
    match FindFrom(s, [c], 0)
    case None =>
      NoCharBefore(s, c, |s|);
      assert s[..|s|] == s;
      ReplaceAbsent(s, c, with);
    case Some(i) =>
      ReplaceIsJoinSplit(s[i + 1..], c, with);
      ReplaceAtFirst(s, c, with, i);
  }

  /** The inductive step: the part before the first `c`, then `with`, then
      the rest replaced. */
  lemma {:induction false} ReplaceAtFirst(s: string, c: char, with: string, i: nat)
    requires FindFrom(s, [c], 0) == Some(i)
    requires ReplaceChar(s[i + 1..], c, with) == Join(Split(s[i + 1..], [c]), with)
    ensures ReplaceChar(s, c, with) == Join(Split(s, [c]), with)
  {
    var a, rest := s[..i], s[i + 1..];
    NoCharBefore(s, c, i);
    assert s[i..i + 1] == [c];
    assert s == a + [c] + rest;
    calc {
      ReplaceChar(s, c, with);
      { ReplaceAppend(a + [c], rest, c, with); }
      ReplaceChar(a + [c], c, with) + ReplaceChar(rest, c, with);
      { ReplaceAppend(a, [c], c, with); ReplaceAbsent(a, c, with); ReplaceOne(c, with); }
      a + with + Join(Split(rest, [c]), with);
      { JoinCons(a, Split(rest, [c]), with); }
      Join([a] + Split(rest, [c]), with);
      { SplitAt(s, [c], i); }
      Join(Split(s, [c]), with);
    }
  }

  /** A lone `c` becomes `with`. */
  lemma {:induction false} ReplaceOne(c: char, with: string)
    ensures ReplaceChar([c], c, with) == with
  {
    assert ReplaceChar([c], c, with) == with + ReplaceChar([c][1..], c, with);
  }

  /** No one-character occurrence of `c` before `n` means no `c` there. */
  lemma {:induction false} NoCharBefore(s: string, c: char, n: nat)
    requires n <= |s|
    requires forall k :: 0 <= k < n ==> !OccursAt(s, [c], k)
    ensures forall k :: 0 <= k < |s[..n]| ==> s[..n][k] != c
  {
    forall k | 0 <= k < n ensures s[k] != c {
      assert !OccursAt(s, [c], k);
      assert s[k..k + 1] == [s[k]];
    }
  }

  /** Replacing in a string without `c` changes nothing. */
  lemma {:induction false} ReplaceAbsent(s: string, c: char, with: string)
    requires forall k :: 0 <= k < |s| ==> s[k] != c
    ensures ReplaceChar(s, c, with) == s
    decreases |s|
  {
    if s != [] {
      ReplaceAbsent(s[1..], c, with);
    }
  }

  /** Replacing works piece by piece. */
  lemma {:induction false} ReplaceAppend(a: string, b: string, c: char, with: string)
    ensures ReplaceChar(a + b, c, with) == ReplaceChar(a, c, with) + ReplaceChar(b, c, with)
    decreases |a|
  {
    if a != [] {
      var head := if a[0] == c then with else [a[0]];
      assert (a + b)[0] == a[0] && (a + b)[1..] == a[1..] + b;
      assert ReplaceChar(a + b, c, with) == head + ReplaceChar(a[1..] + b, c, with);
      assert ReplaceChar(a, c, with) == head + ReplaceChar(a[1..], c, with);
      ReplaceAppend(a[1..], b, c, with);
    } else {
      assert a + b == b;
    }
  }
}
