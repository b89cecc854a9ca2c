/**
 * The two JavaScript string primitives the App component relies on:
 * `String.prototype.trim` (the empty-input guard of the send handler and the
 * list items of the detail screen) and `String.prototype.split(',')` (the
 * appearance and personality lists of the detail screen).
 */
module Text {

  /** The characters `trim` removes: ECMAScript WhiteSpace and LineTerminator. */
  predicate IsWhitespace(c: char) {
    || c == '\t' || c == '\n' || c == '\U{000B}' || c == '\U{000C}' || c == '\r'
    || c == ' ' || c == '\U{00A0}' || c == '\U{1680}'
    || ('\U{2000}' <= c <= '\U{200A}')
    || c == '\U{2028}' || c == '\U{2029}' || c == '\U{202F}' || c == '\U{205F}'
    || c == '\U{3000}' || c == '\U{FEFF}'
  }

  predicate AllWhitespace(s: string) {
    forall k :: 0 <= k < |s| ==> IsWhitespace(s[k])
  }

  /** No whitespace at either end: what `trim` leaves behind. */
  predicate Trimmed(s: string) {
    s == [] || (!IsWhitespace(s[0]) && !IsWhitespace(s[|s| - 1]))
  }

  /** Drops leading whitespace: the result is the suffix after the leading run. */
  function TrimStart(s: string): (r: string)
    ensures |r| <= |s| && r == s[|s| - |r|..]
    ensures forall k :: 0 <= k < |s| - |r| ==> IsWhitespace(s[k])
    ensures r == [] || !IsWhitespace(r[0])
    decreases |s|
  {
    if |s| > 0 && IsWhitespace(s[0]) then TrimStart(s[1..]) else s
  }

  /** Drops trailing whitespace: the result is the prefix before the trailing run. */
  function TrimEnd(s: string): (r: string)
    ensures |r| <= |s| && r == s[..|r|]
    ensures forall k :: |r| <= k < |s| ==> IsWhitespace(s[k])
    ensures r == [] || !IsWhitespace(r[|r| - 1])
    decreases |s|
  {
    if |s| > 0 && IsWhitespace(s[|s| - 1]) then TrimEnd(s[..|s| - 1]) else s
  }

  /** `s.trim()` */
  function Trim(s: string): string {
    TrimEnd(TrimStart(s))
  }

  /** Where the trimmed part of s begins: the length of its leading whitespace run. */
  function TrimOffset(s: string): nat {
    |s| - |TrimStart(s)|
  }

  /**
   * Trim(s) is the middle part of s between two whitespace runs, and it is
   * itself trimmed.
   */
  lemma {:induction false} TrimShape(s: string)
    ensures Trimmed(Trim(s))
    ensures TrimOffset(s) + |Trim(s)| <= |s|
    ensures Trim(s) == s[TrimOffset(s)..TrimOffset(s) + |Trim(s)|]
    ensures forall k :: 0 <= k < TrimOffset(s) ==> IsWhitespace(s[k])
    ensures forall k :: TrimOffset(s) + |Trim(s)| <= k < |s| ==> IsWhitespace(s[k])
  {
    TrimMiddle(s);
    TrimTrailing(s);
    TrimTrimmed(s);
  }

  lemma {:induction false} TrimMiddle(s: string)
    ensures TrimOffset(s) + |Trim(s)| <= |s|
    ensures Trim(s) == s[TrimOffset(s)..TrimOffset(s) + |Trim(s)|]
  {
    var t := TrimStart(s);
    var r := TrimEnd(t);
    assert t == s[TrimOffset(s)..];
    assert r == t[..|r|];
  }

  lemma {:induction false} TrimTrailing(s: string)
    ensures forall k :: TrimOffset(s) + |Trim(s)| <= k < |s| ==> IsWhitespace(s[k])
  {
    var t := TrimStart(s);
    var i := TrimOffset(s);
    forall k | i + |Trim(s)| <= k < |s| ensures IsWhitespace(s[k]) {
      assert s[k] == t[k - i];
    }
  }

  lemma {:induction false} TrimTrimmed(s: string)
    ensures Trimmed(Trim(s))
  {
    var t := TrimStart(s);
    var r := TrimEnd(t);
    if r != [] {
      assert r == t[..|r|];
      assert r[0] == t[0];
    }
  }

  /**
   * Uniqueness: any split of s into a whitespace run, a trimmed middle and a
   * whitespace run has Trim(s) as its middle. This is the reference
   * definition `Trim` is checked against.
   */
  lemma {:induction false} TrimUnique(a: string, m: string, b: string)
    requires AllWhitespace(a) && AllWhitespace(b) && Trimmed(m)
    ensures Trim(a + m + b) == m
  {
    if m == [] {
      assert AllWhitespace(a + b);
      assert a + m + b == (a + b) + [];
      TrimStartOf(a + b, []);
      assert TrimEnd([]) == [];
    } else {
      assert (m + b)[0] == m[0];
      assert a + m + b == a + (m + b);
      TrimStartOf(a, m + b);
      TrimEndOf(m, b);
    }
  }

  lemma {:induction false} TrimStartOf(a: string, t: string)
    requires AllWhitespace(a)
    requires t == [] || !IsWhitespace(t[0])
    ensures TrimStart(a + t) == t
    decreases |a|
  {
    if a != [] {
      assert (a + t)[1..] == a[1..] + t;
      TrimStartOf(a[1..], t);
    } else {
      assert a + t == t;
    }
  }

  lemma {:induction false} TrimEndOf(t: string, b: string)
    requires AllWhitespace(b)
    requires t == [] || !IsWhitespace(t[|t| - 1])
    ensures TrimEnd(t + b) == t
    decreases |b|
  {
    if b != [] {
      assert (t + b)[..|t + b| - 1] == t + b[..|b| - 1];
      TrimEndOf(t, b[..|b| - 1]);
    } else {
      assert t + b == t;
    }
  }

  /** `!s.trim()` holds exactly when s consists of whitespace only. */
  lemma {:induction false} TrimEmptyIff(s: string)
    ensures Trim(s) == [] <==> AllWhitespace(s)
  {
    TrimShape(s);
    if AllWhitespace(s) {
      TrimUnique(s, [], []);
      assert s + [] + [] == s;
    }
  }

  /** A string with a non-whitespace character survives `trim` non-empty. */
  lemma {:induction false} TrimHasContent(s: string, k: nat)
    requires k < |s| && !IsWhitespace(s[k])
    ensures Trim(s) != []
  {
    TrimEmptyIff(s);
  }

  /** Trimming twice is trimming once. */
  lemma {:induction false} TrimIdempotent(s: string)
    ensures Trim(Trim(s)) == Trim(s)
  {
    TrimShape(s);
    TrimUnique([], Trim(s), []);
    assert [] + Trim(s) + [] == Trim(s);
  }

  /** `s.split(',')`: the pieces between commas, in order; "" splits to [""]. */
  function Split(s: string): (r: seq<string>)
    ensures |r| >= 1
    decreases |s|
  {
    if s == [] then [[]]
    else if s[0] == ',' then [[]] + Split(s[1..])
    else
      var rest := Split(s[1..]);
      [[s[0]] + rest[0]] + rest[1..]
  }

  /** `pieces.join(',')` */
  function Join(pieces: seq<string>): string
    decreases |pieces|
  {
    if pieces == [] then []
    else if |pieces| == 1 then pieces[0]
    else pieces[0] + [','] + Join(pieces[1..])
  }

  function CommaCount(s: string): nat
    decreases |s|
  {
    if s == [] then 0 else (if s[0] == ',' then 1 else 0) + CommaCount(s[1..])
  }

  predicate NoComma(s: string) {
    forall k :: 0 <= k < |s| ==> s[k] != ','
  }

  /** Split yields one more piece than there are commas, and no piece holds a comma. */
  lemma {:induction false} SplitPieces(s: string)
    ensures |Split(s)| == CommaCount(s) + 1
    ensures forall p :: p in Split(s) ==> NoComma(p)
    decreases |s|
  {
    if s != [] {
      SplitPieces(s[1..]);
      var rest := Split(s[1..]);
      if s[0] != ',' {
        assert NoComma(rest[0]);
        forall p | p in Split(s) ensures NoComma(p) {
          if p != [s[0]] + rest[0] {
            assert p in rest[1..];
          }
        }
      }
    }
  }

  /** Joining the pieces with commas gives back the original string. */
  lemma {:induction false} JoinSplit(s: string)
    ensures Join(Split(s)) == s
    decreases |s|
  {
    if s != [] {
      JoinSplit(s[1..]);
      var rest := Split(s[1..]);
      if s[0] == ',' {
        assert Split(s) == [[]] + rest;
      } else {
        var r := Split(s);
        if |rest| == 1 {
          assert r == [[s[0]] + rest[0]];
          assert Join(rest) == rest[0];
        } else {
          assert r[1..] == rest[1..];
          assert Join(rest) == rest[0] + [','] + Join(rest[1..]);
          assert Join(r) == [s[0]] + rest[0] + [','] + Join(rest[1..]);
        }
      }
    }
  }

  /** Splitting comma-free pieces joined by commas gives the pieces back. */
  lemma {:induction false} SplitJoin(pieces: seq<string>)
    requires |pieces| >= 1
    requires forall k :: 0 <= k < |pieces| ==> NoComma(pieces[k])
    ensures Split(Join(pieces)) == pieces
    decreases |pieces|
  {
    if |pieces| == 1 {
      SplitNoComma(pieces[0]);
    } else {
      SplitJoin(pieces[1..]);
      SplitPrefix(pieces[0], Join(pieces[1..]));
      assert Join(pieces) == pieces[0] + ([','] + Join(pieces[1..]));
      assert pieces == [pieces[0]] + pieces[1..];
    }
  }

  lemma {:induction false} SplitNoComma(p: string)
    requires NoComma(p)
    ensures Split(p) == [p]
    decreases |p|
  {
    if p != [] {
      SplitNoComma(p[1..]);
      assert [p[0]] + p[1..] == p;
    }
  }

  /** A comma-free head followed by a comma opens the piece list. */
  lemma {:induction false} SplitPrefix(p: string, t: string)
    requires NoComma(p)
    ensures Split(p + [','] + t) == [p] + Split(t)
    decreases |p|
  {
    var s := p + [','] + t;
    if p == [] {
      assert s == [','] + t && s[0] == ',' && s[1..] == t;
    } else {
      assert s[0] == p[0] && s[1..] == p[1..] + [','] + t;
      SplitPrefix(p[1..], t);
      var rest := [p[1..]] + Split(t);
      assert rest[0] == p[1..] && rest[1..] == Split(t);
      assert [p[0]] + p[1..] == p;
    }
  }

  /** `s.split(',').map(item => item.trim())`: the bullet items of a list field. */
  function CommaItems(s: string): seq<string> {
    var pieces := Split(s);
    seq(|pieces|, k requires 0 <= k < |pieces| => Trim(pieces[k]))
  }

  /**
   * There is one item per comma plus one, each item is the trimmed piece
   * between two commas, and no item has whitespace at either end or holds a
   * comma.
   */
  lemma {:induction false} CommaItemsShape(s: string)
    ensures |CommaItems(s)| == CommaCount(s) + 1
    ensures forall k :: 0 <= k < |CommaItems(s)| ==>
              CommaItems(s)[k] == Trim(Split(s)[k]) && Trimmed(CommaItems(s)[k]) && NoComma(CommaItems(s)[k])
  {
    SplitPieces(s);
    var pieces := Split(s);
    forall k | 0 <= k < |pieces| ensures Trimmed(Trim(pieces[k])) && NoComma(Trim(pieces[k])) {
      assert pieces[k] in pieces;
      TrimKeepsNoComma(pieces[k]);
    }
  }

  /** Trimming a comma-free piece gives a trimmed, comma-free item. */
  lemma {:induction false} TrimKeepsNoComma(p: string)
    requires NoComma(p)
    ensures Trimmed(Trim(p)) && NoComma(Trim(p))
  {
    TrimShape(p);
    var i := TrimOffset(p);
    forall m | 0 <= m < |Trim(p)| ensures Trim(p)[m] != ',' {
      assert Trim(p)[m] == p[i + m];
    }
  }
}
