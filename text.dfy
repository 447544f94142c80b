/**
  The text handling of the uBitAddr application: preparing a string for a
  character LCD (`prep_data`) and trimming the strings the BitAddr module
  returns.
*/
module Text {

  /** "abcdefghijklmnopqrstuvwxyz", "ABCDEFGHIJKLMNOPQRSTUVWXYZ" and "0123456789". */
  const LOWER: string := CharRange('a', 26)
  const UPPER: string := CharRange('A', 26)
  const DIGITS: string := CharRange('0', 10)
  /** The 62 characters `prep_data` keeps. */
  const ALPHABET := LOWER + UPPER + DIGITS

  /** What the CashAddr encoder puts in front of the payload, removed when trimming. */
  const CASH_PREFIX := "bitcoincash:"

  const ADDRESS_WIDTH := 34
  const CASH_ADDRESS_WIDTH := 42
  const PRIVKEY_WIDTH := 51

  function Min(a: int, b: int): int { if a <= b then a else b }

  /** The `n` consecutive characters starting at `first`. */
  function CharRange(first: char, n: nat): (r: string)
    requires first as int + n <= 0xD800
    ensures |r| == n
    ensures forall i :: 0 <= i < n ==> r[i] as int == first as int + i
  {
    seq(n, i requires 0 <= i < n => (first as int + i) as char)
  }

  // ---------------------------------------------------------------------
  // prep_data
  // ---------------------------------------------------------------------

  /** Membership in `ALPHABET`, by character ranges (see `InAlphabet`). */
  predicate IsAlnum(ch: char)
  {
    'a' <= ch <= 'z' || 'A' <= ch <= 'Z' || '0' <= ch <= '9'
  }

  /** The output `data[i]` contributes: itself when it is in the alphabet, nothing otherwise. */
  function Kept(ch: char): string
  {
    if IsAlnum(ch) then [ch] else ""
  }

  /** The line break emitted before input position `i`. */
  function Break(i: nat, colmax: int): string
    requires colmax != 0 || i == 0
  {
    if i != 0 && i % colmax == 0 then "\n" else ""
  }

  /** The accumulator of `prep_data` after the first `n` input positions. */
  function Prepped(data: string, colmax: int, n: nat): string
    requires n <= |data|
    requires colmax != 0 || n <= 1
  {
    if n == 0 then "" else Prepped(data, colmax, n - 1) + Break(n - 1, colmax) + Kept(data[n - 1])
  }

  /** `data` with every character outside the alphabet dropped, in order. */
  function Filter(s: string): string
  {
    if s == [] then "" else Filter(s[..|s| - 1]) + Kept(s[|s| - 1])
  }

  /** `s` with every newline deleted. */
  function DeleteNewlines(s: string): string
  {
    if s == [] then "" else DeleteNewlines(s[..|s| - 1]) + (if s[|s| - 1] == '\n' then "" else [s[|s| - 1]])
  }

  function CountNewlines(s: string): nat
  {
    if s == [] then 0 else CountNewlines(s[..|s| - 1]) + (if s[|s| - 1] == '\n' then 1 else 0)
  }

  /** The input positions before which `prep_data` emits a line break. */
  function BreakPositions(n: nat, colmax: int): set<nat>
    requires colmax != 0 || n <= 1
  {
    set i: nat | 1 <= i < n && i % colmax == 0
  }

  /**
    An independent description of the display layout: the input cut into
    windows of `colmax` positions, each window filtered to the alphabet.
  */
  function Lines(s: string, colmax: nat): (ls: seq<string>)
    requires colmax > 0
    ensures |ls| >= 1
    decreases |s|
  {
    if |s| <= colmax then [Filter(s)] else [Filter(s[..colmax])] + Lines(s[colmax..], colmax)
  }

  /** Lines joined by newlines. */
  function Join(ls: seq<string>): string
    requires |ls| >= 1
  {
    if |ls| == 1 then ls[0] else ls[0] + "\n" + Join(ls[1..])
  }

  // ---------------------------------------------------------------------
  // Trimming
  // ---------------------------------------------------------------------

  /** Python's `s[:n]`. */
  function Take(s: string, n: nat): (r: string)
    ensures |r| == Min(n, |s|)
    ensures r == s[..|r|]
  {
    if |s| <= n then s else s[..n]
  }

  /** Python's `s.replace(pat, "")`: every non-overlapping occurrence, scanned left to right, deleted. */
  function RemoveAll(s: string, pat: string): (r: string)
    ensures |r| <= |s|
    decreases |s|
  {
    if pat == [] || |s| < |pat| then s
    else if s[..|pat|] == pat then RemoveAll(s[|pat|..], pat)
    else [s[0]] + RemoveAll(s[1..], pat)
  }

  predicate OccursAt(pat: string, s: string, i: nat)
  {
    i + |pat| <= |s| && s[i..i + |pat|] == pat
  }

  ghost predicate Occurs(pat: string, s: string)
  {
    exists i: nat :: OccursAt(pat, s, i)
  }

  /** The trimming at the end of `generate_address_privkey`, driven by the `bch` flag. */
  function Trimmed(bch: bool, address: string, privkey: string): (r: (string, string))
    ensures |r.0| <= if bch then CASH_ADDRESS_WIDTH else ADDRESS_WIDTH
    ensures !bch ==> r.0 == address[..Min(ADDRESS_WIDTH, |address|)]
    ensures r.1 == privkey[..Min(PRIVKEY_WIDTH, |privkey|)]
  {
    var address := if bch then Take(RemoveAll(address, CASH_PREFIX), CASH_ADDRESS_WIDTH)
                   else Take(address, ADDRESS_WIDTH);
    (address, Take(privkey, PRIVKEY_WIDTH))
  }

  // ---------------------------------------------------------------------
  // Properties of prep_data
  // ---------------------------------------------------------------------

  lemma InRange(first: char, n: nat, ch: char)
    requires first as int + n <= 0xD800
    ensures ch in CharRange(first, n) <==> first as int <= ch as int < first as int + n
  {
    var r := CharRange(first, n);
    if first as int <= ch as int < first as int + n {
      assert r[ch as int - first as int] == ch;
    }
  }

  lemma InLower(ch: char)
    ensures ch in LOWER <==> 'a' <= ch <= 'z'
  {
    InRange('a', 26, ch);
  }

  lemma InUpper(ch: char)
    ensures ch in UPPER <==> 'A' <= ch <= 'Z'
  {
    InRange('A', 26, ch);
  }

  lemma InDigits(ch: char)
    ensures ch in DIGITS <==> '0' <= ch <= '9'
  {
    InRange('0', 10, ch);
  }

  /** The alphabet is exactly the ASCII letters and digits; it has 62 characters and no newline. */
  lemma InAlphabet(ch: char)
    ensures ch in ALPHABET <==> IsAlnum(ch)
    ensures |ALPHABET| == 62 && '\n' !in ALPHABET
  {
    InLower(ch);
    InUpper(ch);
    InDigits(ch);
    InLower('\n');
    InUpper('\n');
    InDigits('\n');
  }

  lemma {:induction false} FilterAppend(a: string, b: string)
    ensures Filter(a + b) == Filter(a) + Filter(b)
    decreases |b|
  {
    if b == [] {
      assert a + b == a;
    } else {
      var b' := b[..|b| - 1];
      assert (a + b)[..|a + b| - 1] == a + b';
      FilterAppend(a, b');
    }
  }

  lemma {:induction false} FilterLength(s: string)
    ensures |Filter(s)| <= |s|
    ensures forall i :: 0 <= i < |Filter(s)| ==> IsAlnum(Filter(s)[i])
    decreases |s|
  {
    if s != [] {
      FilterLength(s[..|s| - 1]);
    }
  }

  lemma {:induction false} DeleteNewlinesAppend(a: string, b: string)
    ensures DeleteNewlines(a + b) == DeleteNewlines(a) + DeleteNewlines(b)
    decreases |b|
  {
    if b == [] {
      assert a + b == a;
    } else {
      var b' := b[..|b| - 1];
      assert (a + b)[..|a + b| - 1] == a + b';
      DeleteNewlinesAppend(a, b');
    }
  }

  lemma {:induction false} CountNewlinesAppend(a: string, b: string)
    ensures CountNewlines(a + b) == CountNewlines(a) + CountNewlines(b)
    decreases |b|
  {
    if b == [] {
      assert a + b == a;
    } else {
      var b' := b[..|b| - 1];
      assert (a + b)[..|a + b| - 1] == a + b';
      CountNewlinesAppend(a, b');
    }
  }

  /** Every output character is in the 62-character alphabet or is a newline. */
  lemma {:induction false} PreppedCharacters(data: string, colmax: int, n: nat)
    requires n <= |data|
    requires colmax != 0 || n <= 1
    ensures forall i :: 0 <= i < |Prepped(data, colmax, n)| ==>
              Prepped(data, colmax, n)[i] in ALPHABET || Prepped(data, colmax, n)[i] == '\n'
  {
    if n > 0 {
      PreppedCharacters(data, colmax, n - 1);
      InAlphabet(data[n - 1]);
    }
  }

  /** What one loop step appends: a break that is empty or a newline, and a character that is no newline. */
  lemma StepPieces(i: nat, colmax: int, ch: char)
    requires colmax != 0 || i == 0
    ensures Break(i, colmax) == "" || Break(i, colmax) == "\n"
    ensures DeleteNewlines(Break(i, colmax)) == ""
    ensures CountNewlines(Break(i, colmax)) == if i != 0 && i % colmax == 0 then 1 else 0
    ensures DeleteNewlines(Kept(ch)) == Kept(ch)
    ensures CountNewlines(Kept(ch)) == 0
  {
    assert "\n"[..0] == "";
    assert [ch][..0] == "";
  }

  /** A loop step adds no newline-free character other than the kept one. */
  lemma DeleteNewlinesStep(p: string, i: nat, colmax: int, ch: char)
    requires colmax != 0 || i == 0
    ensures DeleteNewlines(p + Break(i, colmax) + Kept(ch)) == DeleteNewlines(p) + Kept(ch)
  {
    var b, k := Break(i, colmax), Kept(ch);
    StepPieces(i, colmax, ch);
    DeleteNewlinesAppend(p + b, k);
    DeleteNewlinesAppend(p, b);
    DropEmpty(DeleteNewlines(p + b + k), DeleteNewlines(p + b), DeleteNewlines(p), DeleteNewlines(b), k);
  }

  lemma FilterSnoc(data: string, n: nat)
    requires 0 < n <= |data|
    ensures Filter(data[..n]) == Filter(data[..n - 1]) + Kept(data[n - 1])
  {
    assert data[..n][..n - 1] == data[..n - 1];
  }

  /** Deleting the newlines gives back the input filtered to the alphabet, in order. */
  lemma {:induction false} PreppedDeleteNewlines(data: string, colmax: int, n: nat)
    requires n <= |data|
    requires colmax != 0 || n <= 1
    ensures DeleteNewlines(Prepped(data, colmax, n)) == Filter(data[..n])
  {
    if n > 0 {
      PreppedDeleteNewlines(data, colmax, n - 1);
      DeleteNewlinesStep(Prepped(data, colmax, n - 1), n - 1, colmax, data[n - 1]);
      FilterSnoc(data, n);
    }
  }

  /** Extending the range by position n - 1 adds it exactly when a break is emitted there. */
  lemma BreakPositionsStep(n: nat, colmax: int)
    requires n > 0 && (colmax != 0 || n <= 1)
    ensures |BreakPositions(n, colmax)| == |BreakPositions(n - 1, colmax)| + CountNewlines(Break(n - 1, colmax))
  {
    StepPieces(n - 1, colmax, 'a');
    if n - 1 != 0 && (n - 1) % colmax == 0 {
      assert BreakPositions(n, colmax) == BreakPositions(n - 1, colmax) + {n - 1};
    } else {
      assert BreakPositions(n, colmax) == BreakPositions(n - 1, colmax);
    }
  }

  /** One newline for each input position i, 1 <= i < n, that colmax divides. */
  lemma {:induction false} PreppedNewlineCount(data: string, colmax: int, n: nat)
    requires n <= |data|
    requires colmax != 0 || n <= 1
    ensures CountNewlines(Prepped(data, colmax, n)) == |BreakPositions(n, colmax)|
  {
    if n > 0 {
      PreppedNewlineCount(data, colmax, n - 1);
      var p := Prepped(data, colmax, n - 1);
      var b, k := Break(n - 1, colmax), Kept(data[n - 1]);
      assert Prepped(data, colmax, n) == p + b + k;
      CountNewlinesAppend(p + b, k);
      CountNewlinesAppend(p, b);
      StepPieces(n - 1, colmax, data[n - 1]);
      BreakPositionsStep(n, colmax);
    }
  }

  lemma JoinCons(l: string, ls: seq<string>)
    requires |ls| >= 1
    ensures Join([l] + ls) == l + "\n" + Join(ls)
  {
    assert ([l] + ls)[1..] == ls;
  }

  lemma BreakShift(i: nat, colmax: nat)
    requires 0 < colmax < i
    ensures Break(i - colmax, colmax) == Break(i, colmax)
  {
    ModShift(i, colmax);
  }

  lemma SnocWithinFirstLine(s: string, x: char, colmax: nat)
    requires 0 < colmax && |s| < colmax
    ensures Join(Lines(s + [x], colmax)) == Join(Lines(s, colmax)) + Break(|s|, colmax) + Kept(x)
  {
    var s' := s + [x];
    assert s'[..|s'| - 1] == s;
    assert Lines(s', colmax) == [Filter(s) + Kept(x)];
    DivUnique(|s|, colmax, 0, |s|);
    assert Break(|s|, colmax) == "";
  }

  lemma SnocOpensSecondLine(s: string, x: char, colmax: nat)
    requires 0 < colmax && |s| == colmax
    ensures Join(Lines(s + [x], colmax)) == Join(Lines(s, colmax)) + Break(|s|, colmax) + Kept(x)
  {
    var s' := s + [x];
    assert s'[..colmax] == s;
    assert s'[colmax..] == [x];
    assert [x][..0] == [];
    assert Filter([x]) == Kept(x);
    DivUnique(|s|, colmax, 1, 0);
    assert Break(|s|, colmax) == "\n";
    assert Lines(s', colmax) == [Filter(s)] + [Kept(x)];
    JoinCons(Filter(s), [Kept(x)]);
  }

  /** The layout of `Lines` grows one input character at a time exactly as the loop does. */
  lemma {:induction false} JoinLinesSnoc(s: string, x: char, colmax: nat)
    requires colmax > 0
    ensures Join(Lines(s + [x], colmax)) == Join(Lines(s, colmax)) + Break(|s|, colmax) + Kept(x)
    decreases |s|
  {
    if |s| < colmax {
      SnocWithinFirstLine(s, x, colmax);
    } else if |s| == colmax {
      SnocOpensSecondLine(s, x, colmax);
    } else {
      JoinLinesSnoc(s[colmax..], x, colmax);
      BreakShift(|s|, colmax);
      SnocPastFirstLine(s, x, colmax, Break(|s|, colmax), Kept(x));
    }
  }

  /** The step of `JoinLinesSnoc` past the first line, given the property for the rest. */
  lemma SnocPastFirstLine(s: string, x: char, colmax: nat, b: string, k: string)
    requires 0 < colmax < |s|
    requires Join(Lines(s[colmax..] + [x], colmax)) == Join(Lines(s[colmax..], colmax)) + b + k
    ensures Join(Lines(s + [x], colmax)) == Join(Lines(s, colmax)) + b + k
  {
    var u := s + [x];
    SnocSlices(s, x, colmax);
    var head, mid := Filter(s[..colmax]), Join(Lines(s[colmax..], colmax));
    assert Filter(u[..colmax]) == head;
    assert Join(Lines(u[colmax..], colmax)) == mid + b + k;
    LayoutFirstLine(u, colmax);
    LayoutFirstLine(s, colmax);
    Regroup(Join(Lines(u, colmax)), Join(Lines(s, colmax)), head + "\n", Join(Lines(u[colmax..], colmax)), mid, b, k);
  }

  /**
    For a positive width, the output is the input cut into windows of `colmax`
    positions, each filtered, joined by newlines: breaks follow input
    positions, so a dropped character shortens its line.
  */
  lemma {:induction false} PreppedIsLines(data: string, colmax: nat, n: nat)
    requires colmax > 0 && n <= |data|
    ensures Prepped(data, colmax, n) == Join(Lines(data[..n], colmax))
  {
    if n == 0 {
      assert Filter("") == "";
    } else {
      PreppedIsLines(data, colmax, n - 1);
      assert data[..n] == data[..n - 1] + [data[n - 1]];
      JoinLinesSnoc(data[..n - 1], data[n - 1], colmax);
    }
  }

  /** Input positions k*colmax up to (k+1)*colmax, cut to the input. */
  function Window(s: string, colmax: nat, k: nat): string
  {
    s[Min(k * colmax, |s|)..Min((k + 1) * colmax, |s|)]
  }

  /** Line k of the layout filters input positions k*colmax up to (k+1)*colmax. */
  lemma {:induction false} LineAt(s: string, colmax: nat, k: nat)
    requires colmax > 0 && k < |Lines(s, colmax)|
    ensures Lines(s, colmax)[k] == Filter(Window(s, colmax, k))
    decreases |s|
  {
    if k == 0 {
      assert Window(s, colmax, 0) == s[..Min(colmax, |s|)];
      if |s| <= colmax {
        assert s[..|s|] == s;
      }
    } else {
      var t := s[colmax..];
      assert Lines(s, colmax)[k] == Lines(t, colmax)[k - 1];
      LineAt(t, colmax, k - 1);
      WindowOfDrop(s, colmax, k);
    }
  }

  /** Window k - 1 of `s[colmax..]` is window k of `s`. */
  lemma WindowOfDrop(s: string, colmax: nat, k: nat)
    requires 0 < colmax < |s| && k >= 1
    ensures Window(s[colmax..], colmax, k - 1) == Window(s, colmax, k)
  {
    var lo, hi := (k - 1) * colmax, k * colmax;
    MulStep(k, colmax);
    MinShift(lo, colmax, |s|);
    MinShift(hi, colmax, |s|);
    SliceOfDrop(s, colmax, Min(lo, |s| - colmax), Min(hi, |s| - colmax));
  }

  /** No line is longer than `colmax` and none holds a newline. */
  lemma LinesShape(s: string, colmax: nat, k: nat)
    requires colmax > 0 && k < |Lines(s, colmax)|
    ensures |Lines(s, colmax)[k]| <= colmax
    ensures '\n' !in Lines(s, colmax)[k]
  {
    LineAt(s, colmax, k);
    WindowLength(s, colmax, k);
    FilterLength(Window(s, colmax, k));
    NoNewlineFiltered(Window(s, colmax, k));
  }

  lemma WindowLength(s: string, colmax: nat, k: nat)
    ensures |Window(s, colmax, k)| <= colmax
  {
    MulStep(k + 1, colmax);
  }

  lemma NoNewlineFiltered(w: string)
    ensures '\n' !in Filter(w)
  {
    FilterLength(w);
  }

  /**
    The output starts with a newline exactly when the input is longer than one
    window and the first window holds no alphabet character; for an empty input
    it is empty.
  */
  lemma LeadingNewline(data: string, colmax: nat)
    requires colmax > 0
    ensures data == [] ==> Prepped(data, colmax, |data|) == ""
    ensures (|Prepped(data, colmax, |data|)| > 0 && Prepped(data, colmax, |data|)[0] == '\n')
        <==> (|data| > colmax && Filter(data[..colmax]) == "")
  {
    PreppedIsLines(data, colmax, |data|);
    assert data[..|data|] == data;
    var ls := Lines(data, colmax);
    LinesShape(data, colmax, 0);
    if |data| > colmax {
      assert Join(ls) == ls[0] + "\n" + Join(ls[1..]);
      if ls[0] != "" {
        assert Join(ls)[0] == ls[0][0];
      }
    } else {
      assert Join(ls) == ls[0];
    }
  }

  // ---------------------------------------------------------------------
  // Properties of the trimming
  // ---------------------------------------------------------------------

  /** Where the pattern does not occur, nothing is removed. */
  lemma {:induction false} RemoveAllNoOccurrence(s: string, pat: string)
    requires !Occurs(pat, s)
    ensures RemoveAll(s, pat) == s
    decreases |s|
  {
    if pat != [] && |s| >= |pat| {
      assert s[0..|pat|] == s[..|pat|];
      assert !OccursAt(pat, s, 0);
      assert !Occurs(pat, s[1..]) by {
        forall i: nat | i + |pat| <= |s[1..]|
          ensures !OccursAt(pat, s[1..], i)
        {
          assert s[1..][i..i + |pat|] == s[i + 1..i + 1 + |pat|];
          assert !OccursAt(pat, s, i + 1);
        }
      }
      RemoveAllNoOccurrence(s[1..], pat);
    }
  }

  /**
    The first occurrence of the pattern is deleted, the text before it is kept,
    and the scan resumes after it, so text the deletion brings together is not
    rescanned.
  */
  lemma {:induction false} RemoveAllFirstOccurrence(u: string, pat: string, v: string)
    requires pat != []
    requires forall i :: 0 <= i < |u| ==> !OccursAt(pat, u + pat + v, i)
    ensures RemoveAll(u + pat + v, pat) == u + RemoveAll(v, pat)
    decreases |u|
  {
    if u == [] {
      RemoveAllAtPattern(pat, v);
    } else {
      RemoveAllKeepsHead(u, pat, v);
      NoOccurrenceInTail(u, pat, v);
      RemoveAllFirstOccurrence(u[1..], pat, v);
      ConsRegroup(u, RemoveAll(v, pat));
    }
  }

  lemma RemoveAllAtPattern(pat: string, v: string)
    requires pat != []
    ensures RemoveAll(pat + v, pat) == RemoveAll(v, pat)
  {
    var s := pat + v;
    assert s[..|pat|] == pat && s[|pat|..] == v;
  }

  lemma RemoveAllKeepsHead(u: string, pat: string, v: string)
    requires pat != [] && u != []
    requires !OccursAt(pat, u + pat + v, 0)
    ensures RemoveAll(u + pat + v, pat) == [u[0]] + RemoveAll(u[1..] + pat + v, pat)
  {
    var s := u + pat + v;
    assert s[0..|pat|] == s[..|pat|];
    assert s[1..] == u[1..] + pat + v;
  }

  lemma NoOccurrenceInTail(u: string, pat: string, v: string)
    requires u != []
    requires forall i :: 0 <= i < |u| ==> !OccursAt(pat, u + pat + v, i)
    ensures forall i :: 0 <= i < |u[1..]| ==> !OccursAt(pat, u[1..] + pat + v, i)
  {
    var s := u + pat + v;
    assert s[1..] == u[1..] + pat + v;
    forall i | 0 <= i < |u[1..]|
      ensures !OccursAt(pat, u[1..] + pat + v, i)
    {
      assert !OccursAt(pat, s, i + 1);
      if i + |pat| <= |s[1..]| {
        assert s[1..][i..i + |pat|] == s[i + 1..i + 1 + |pat|];
      }
    }
  }

  /**
    A CashAddr string "bitcoincash:" + payload, followed by anything in which
    the prefix does not occur, trims to its first 42 payload characters.
  */
  lemma CashAddressTrim(payload: string, rest: string, privkey: string)
    requires !Occurs(CASH_PREFIX, payload + rest)
    ensures Trimmed(true, CASH_PREFIX + payload + rest, privkey).0 == Take(payload + rest, CASH_ADDRESS_WIDTH)
    ensures |payload| >= CASH_ADDRESS_WIDTH ==>
              Trimmed(true, CASH_PREFIX + payload + rest, privkey).0 == payload[..CASH_ADDRESS_WIDTH]
  {
    var s := CASH_PREFIX + payload + rest;
    assert s[..|CASH_PREFIX|] == CASH_PREFIX;
    assert s[|CASH_PREFIX|..] == payload + rest;
    RemoveAllNoOccurrence(payload + rest, CASH_PREFIX);
    if |payload| >= CASH_ADDRESS_WIDTH {
      assert (payload + rest)[..CASH_ADDRESS_WIDTH] == payload[..CASH_ADDRESS_WIDTH];
    }
  }
  // ---------------------------------------------------------------------
  // Preparing text that is already prepared
  // ---------------------------------------------------------------------

  predicate AllAlnum(s: string)
  {
    forall i :: 0 <= i < |s| ==> IsAlnum(s[i])
  }

  /** `prep_data` with the width of the application's LCD, on a whole string. */
  function PrepText(s: string, colmax: nat): string
    requires colmax > 0
  {
    Prepped(s, colmax, |s|)
  }

  lemma {:induction false} FilterKeepsAlnum(s: string)
    requires AllAlnum(s)
    ensures Filter(s) == s
    decreases |s|
  {
    if s != [] {
      FilterKeepsAlnum(s[..|s| - 1]);
    }
  }

  lemma JoinStartsWithFirst(ls: seq<string>)
    requires |ls| >= 1
    ensures |Join(ls)| >= |ls[0]| && Join(ls)[..|ls[0]|] == ls[0]
  {
  }

  lemma AllAlnumSlice(s: string, a: nat, b: nat)
    requires AllAlnum(s) && a <= b <= |s|
    ensures AllAlnum(s[a..b])
  {
    assert forall i :: 0 <= i < b - a ==> s[a..b][i] == s[a + i];
  }

  /** The layout of a text longer than one line: its first line, a newline, the layout of the rest. */
  lemma LayoutFirstLine(s: string, colmax: nat)
    requires 0 < colmax < |s|
    ensures Join(Lines(s, colmax)) == Filter(s[..colmax]) + "\n" + Join(Lines(s[colmax..], colmax))
  {
    assert Lines(s, colmax) == [Filter(s[..colmax])] + Lines(s[colmax..], colmax);
    JoinCons(Filter(s[..colmax]), Lines(s[colmax..], colmax));
  }

  /** The same, for the output of `prep_data`. */
  lemma PrepFirstLine(s: string, colmax: nat)
    requires 0 < colmax < |s|
    ensures PrepText(s, colmax) == Filter(s[..colmax]) + "\n" + Join(Lines(s[colmax..], colmax))
  {
    PreppedIsLines(s, colmax, |s|);
    assert s[..|s|] == s;
    LayoutFirstLine(s, colmax);
  }

  /** `PrepFirstLine` with its two pieces named. */
  lemma PrepFromPieces(s: string, colmax: nat, first: string, rest: string)
    requires 0 < colmax < |s|
    requires Filter(s[..colmax]) == first && Join(Lines(s[colmax..], colmax)) == rest
    ensures PrepText(s, colmax) == first + "\n" + rest
  {
    PrepFirstLine(s, colmax);
  }

  /** A text of one line at most is laid out as that line, filtered. */
  lemma ShortLayout(u: string, colmax: nat)
    requires 0 < colmax && |u| <= colmax
    ensures Join(Lines(u, colmax)) == Filter(u)
  {
  }

  /** A leading newline is filtered away. */
  lemma FilterNewlineThen(b: string)
    ensures Filter("\n" + b) == Filter(b)
  {
    FilterAppend("\n", b);
    assert "\n"[..0] == "";
  }

  /** The layout of an alphanumeric text of at least one full line starts with that line. */
  lemma LayoutStartsWithLine(u: string, colmax: nat)
    requires 0 < colmax <= |u| && AllAlnum(u[..colmax])
    ensures |Join(Lines(u, colmax))| >= colmax
    ensures Join(Lines(u, colmax))[..colmax] == u[..colmax]
  {
    LineAt(u, colmax, 0);
    assert Window(u, colmax, 0) == u[..colmax];
    FilterKeepsAlnum(u[..colmax]);
    JoinStartsWithFirst(Lines(u, colmax));
  }

  /** `p` holds the first `colmax` characters of `s`, a newline, then the next `colmax`. */
  predicate LineThenLine(p: string, s: string, colmax: nat)
  {
    |s| >= 2 * colmax && |p| > 2 * colmax && p[..colmax] == s[..colmax] && p[colmax] == '\n'
    && p[colmax + 1..2 * colmax + 1] == s[colmax..2 * colmax]
  }

  lemma LineBreakLine(p: string, s: string, x: string, c: nat)
    requires |s| >= 2 * c && p == s[..c] + "\n" + x && |x| >= c && x[..c] == s[c..2 * c]
    ensures LineThenLine(p, s, c)
  {
  }

  /** The first preparation of an alphanumeric text of two or more lines: a line, a newline, the next line. */
  lemma PrepTwoLines(s: string, colmax: nat)
    requires colmax > 0 && AllAlnum(s) && |s| >= 2 * colmax
    ensures LineThenLine(PrepText(s, colmax), s, colmax)
  {
    var c := colmax;
    var u := s[c..];
    AllAlnumSlice(s, 0, c);
    FilterKeepsAlnum(s[..c]);
    AllAlnumSlice(s, c, 2 * c);
    assert u[..c] == s[c..2 * c];
    LayoutStartsWithLine(u, c);
    var x := Join(Lines(u, c));
    PrepFirstLine(s, c);
    LineBreakLine(PrepText(s, c), s, x, c);
  }

  /**
    Preparing a text whose first line is followed by a newline and whose
    next `colmax` positions hold that newline and alphanumerics puts a
    newline at output position 2 * colmax.
  */
  lemma PrepAfterPrep(p: string, colmax: nat)
    requires colmax > 0 && |p| > 2 * colmax
    requires AllAlnum(p[..colmax]) && p[colmax] == '\n' && AllAlnum(p[colmax + 1..2 * colmax])
    ensures |PrepText(p, colmax)| > 2 * colmax
    ensures PrepText(p, colmax)[2 * colmax] == '\n'
  {
    var c := colmax;
    var v := p[c..];
    var line := p[c + 1..2 * c];
    assert v[..c] == "\n" + line;
    FilterNewlineThen(line);
    FilterKeepsAlnum(line);
    LayoutFirstLine(v, c);
    var rest := Join(Lines(v[c..], c));
    FilterKeepsAlnum(p[..c]);
    PrepFromPieces(p, c, p[..c], line + "\n" + rest);
    NewlineAfterTwoLines(p[..c], line, rest, c);
  }

  lemma NewlineAfterTwoLines(a: string, b: string, rest: string, c: nat)
    requires |a| == c && |b| == c - 1 && c > 0
    ensures |a + "\n" + (b + "\n" + rest)| > 2 * c
    ensures (a + "\n" + (b + "\n" + rest))[2 * c] == '\n'
  {
  }

  /** What a first preparation leaves for the second one to read. */
  lemma SecondLineShape(p: string, s: string, c: nat)
    requires c > 0 && AllAlnum(s) && LineThenLine(p, s, c)
    ensures AllAlnum(p[..c]) && p[c] == '\n' && AllAlnum(p[c + 1..2 * c])
    ensures p[2 * c] == s[2 * c - 1]
  {
    var line := p[c + 1..2 * c + 1];
    var shorter := p[c + 1..2 * c];
    assert p[2 * c] == line[c - 1];
    assert forall i :: 0 <= i < c - 1 ==> shorter[i] == line[i];
    AllAlnumSlice(s, c, 2 * c);
    AllAlnumSlice(s, 0, c);
  }

  /**
    Preparing an already prepared alphanumeric text of at least two lines
    moves the second break one character earlier: the newline at input
    position `colmax` is dropped but still counts as a position.
  */
  lemma RepreppingMovesBreak(s: string, colmax: nat)
    requires colmax > 0 && AllAlnum(s) && |s| >= 2 * colmax
    ensures |PrepText(s, colmax)| > 2 * colmax
    ensures |PrepText(PrepText(s, colmax), colmax)| > 2 * colmax
    ensures PrepText(s, colmax)[2 * colmax] == s[2 * colmax - 1]
    ensures PrepText(PrepText(s, colmax), colmax)[2 * colmax] == '\n'
    ensures PrepText(PrepText(s, colmax), colmax) != PrepText(s, colmax)
  {
    var c := colmax;
    PrepTwoLines(s, c);
    var p := PrepText(s, c);
    SecondLineShape(p, s, c);
    PrepAfterPrep(p, c);
    InAlphabet(s[2 * c - 1]);
  }

  /** A text of one full line at most is its own layout. */
  lemma OneLineLayout(s: string, colmax: nat)
    requires 0 < colmax && |s| <= colmax && AllAlnum(s)
    ensures Join(Lines(s, colmax)) == s
  {
    FilterKeepsAlnum(s);
  }

  /** An alphanumeric text of more than one and less than two lines: a line, a newline, the rest. */
  lemma PrepShortTwoLines(s: string, colmax: nat)
    requires 0 < colmax < |s| < 2 * colmax && AllAlnum(s)
    ensures PrepText(s, colmax) == s[..colmax] + "\n" + s[colmax..]
  {
    PrepFirstLine(s, colmax);
    AllAlnumSlice(s, 0, colmax);
    FilterKeepsAlnum(s[..colmax]);
    AllAlnumSlice(s, colmax, |s|);
    OneLineLayout(s[colmax..], colmax);
  }

  /** Such a layout is its own layout: the newline at position `colmax` is dropped and put back. */
  lemma PrepShortLayout(p: string, a: string, b: string, colmax: nat)
    requires p == a + "\n" + b && |a| == colmax && |b| < colmax && 0 < colmax
    requires AllAlnum(a) && AllAlnum(b)
    ensures PrepText(p, colmax) == p
  {
    var rest := p[colmax..];
    assert p[..colmax] == a && rest == "\n" + b;
    FilterKeepsAlnum(a);
    FilterNewlineThen(b);
    FilterKeepsAlnum(b);
    ShortLayout(rest, colmax);
    PrepFromPieces(p, colmax, a, b);
  }

  /** Below two full lines, an alphanumeric text keeps its layout when prepared again. */
  lemma RepreppingShortIsStable(s: string, colmax: nat)
    requires colmax > 0 && AllAlnum(s) && |s| < 2 * colmax
    ensures PrepText(PrepText(s, colmax), colmax) == PrepText(s, colmax)
  {
    var c := colmax;
    if |s| <= c {
      PreppedIsLines(s, c, |s|);
      assert s[..|s|] == s;
      OneLineLayout(s, c);
    } else {
      PrepShortTwoLines(s, c);
      AllAlnumSlice(s, 0, c);
      AllAlnumSlice(s, c, |s|);
      PrepShortLayout(PrepText(s, c), s[..c], s[c..], c);
    }
  }

  // ---------------------------------------------------------------------
  // Solver helpers: sequence regrouping and arithmetic steps, stated
  // separately so that the proofs above stay small
  // ---------------------------------------------------------------------

  lemma AppendEmpty<T>(s: seq<T>)
    ensures s + [] == s
  {
  }

  lemma DropEmpty<T>(whole: seq<T>, front: seq<T>, a: seq<T>, e: seq<T>, k: seq<T>)
    requires whole == front + k && front == a + e && e == []
    ensures whole == a + k
  {
    assert a + e == a;
  }

  lemma Regroup<T>(whole: seq<T>, shorter: seq<T>, a: seq<T>, tail: seq<T>, b: seq<T>, c: seq<T>, d: seq<T>)
    requires whole == a + tail && tail == b + c + d && shorter == a + b
    ensures whole == shorter + c + d
  {
  }

  lemma SnocSlices(s: string, x: char, colmax: nat)
    requires colmax < |s|
    ensures (s + [x])[..colmax] == s[..colmax]
    ensures (s + [x])[colmax..] == s[colmax..] + [x]
  {
  }

  lemma ModShift(a: nat, c: nat)
    requires 0 < c < a
    ensures (a - c) % c == a % c
  {
    var q, r := (a - c) / c, (a - c) % c;
    assert a == (q + 1) * c + r;
    DivUnique(a, c, q + 1, r);
  }

  lemma DivUnique(a: int, c: int, q: int, r: int)
    requires c > 0 && 0 <= r < c && a == q * c + r
    ensures a / c == q && a % c == r
  {
    var q', r' := a / c, a % c;
    assert (q - q') * c == r' - r;
    if q - q' >= 1 {
      assert false;
    } else if q - q' <= -1 {
      assert false;
    }
  }

  lemma MinShift(x: int, c: int, n: int)
    ensures c + Min(x, n - c) == Min(x + c, n)
  {
  }

  lemma SliceOfDrop(s: string, c: nat, a: nat, b: nat)
    requires c <= |s| && a <= b <= |s| - c
    ensures s[c..][a..b] == s[c + a..c + b]
  {
  }

  lemma MulStep(k: nat, c: nat)
    requires k >= 1
    ensures (k - 1) * c + c == k * c
    ensures k * c + c == (k + 1) * c
  {
  }

  lemma ConsRegroup(u: string, r: string)
    requires u != []
    ensures [u[0]] + (u[1..] + r) == u + r
  {
    assert [u[0]] + u[1..] == u;
  }
}
