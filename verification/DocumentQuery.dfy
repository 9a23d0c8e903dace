/** Lexical document search over repaired projections that remember where each character came from. */
module DocumentQuery {
  import opened Options

  /** What the host's Unicode tables say: NFKC and case folding of one character, `isalnum`, `isspace`. */
  datatype Alphabet = Alphabet(fold: char -> string, alnum: char -> bool, space: char -> bool)

  ghost predicate IsHyphen(c: char) {
    c in ['-', '\U{2010}', '\U{2011}']
  }

  ghost predicate IsBlank(c: char) {
    c in [' ', '\t']
  }

  ghost predicate IsLineBreak(c: char) {
    c in ['\r', '\n']
  }

  /** All that is used of those tables: punctuation and white space are not alphanumeric, a blank is a space. */
  ghost predicate Standard(alphabet: Alphabet) {
    && (forall c :: IsHyphen(c) || IsBlank(c) || IsLineBreak(c) ==> !alphabet.alnum(c))
    && alphabet.space(' ')
  }

  datatype Columns = Columns(text: string, offsets: seq<nat>)

  /** A projected text and, character by character, the index in the original text it came from. */
  type Projection = p: Columns | |p.text| == |p.offsets| witness Columns("", [])

  datatype Options3 = Options3(removeSoftHyphens: bool, dehyphenate: bool, collapseWhitespace: bool)

  // ------------------------------------------------------------------ keeping some positions

  /** The positions in `lo..hi` outside `away`, in order. */
  function Kept(lo: nat, hi: nat, away: set<nat>): (at: seq<nat>)
    ensures forall k :: 0 <= k < |at| ==> lo <= at[k] < hi
  {
    if hi <= lo then [] else Kept(lo, hi - 1, away) + (if hi - 1 in away then [] else [hi - 1])
  }

  function Pick<T>(s: seq<T>, at: seq<nat>): (r: seq<T>)
    requires forall k :: 0 <= k < |at| ==> at[k] < |s|
  {
    seq(|at|, k requires 0 <= k < |at| => s[at[k]])
  }

  ghost function Filtered(p: Projection, away: set<nat>): Projection {
    var at := Kept(0, |p.text|, away);
    Columns(Pick(p.text, at), Pick(p.offsets, at))
  }

  predicate Ascending(at: seq<nat>, away: set<nat>) {
    && (forall k :: 0 <= k < |at| ==> at[k] !in away)
    && (forall k, l :: 0 <= k < l < |at| ==> at[k] < at[l])
  }

  lemma {:induction false} KeptFacts(lo: nat, hi: nat, away: set<nat>)
    ensures Ascending(Kept(lo, hi, away), away)
  {
    if lo < hi {
      KeptFacts(lo, hi - 1, away);
    }
  }

  /** A position that is kept has as many kept positions before it as its index says. */
  lemma {:induction false} KeptIndex(lo: nat, hi: nat, away: set<nat>, i: nat)
    requires lo <= i < hi && i !in away
    ensures |Kept(lo, i, away)| < |Kept(lo, hi, away)| && Kept(lo, hi, away)[|Kept(lo, i, away)|] == i
  {
    if i < hi - 1 {
      KeptIndex(lo, hi - 1, away, i);
    }
  }

  lemma {:induction false} KeptSplits(lo: nat, mid: nat, hi: nat, away: set<nat>)
    requires lo <= mid <= hi
    ensures Kept(lo, hi, away) == Kept(lo, mid, away) + Kept(mid, hi, away)
  {
    if mid < hi {
      KeptSplits(lo, mid, hi - 1, away);
    }
  }

  lemma {:induction false} KeptNothing(lo: nat, hi: nat, away: set<nat>)
    requires forall i :: lo <= i < hi ==> i in away
    ensures Kept(lo, hi, away) == []
  {
    if lo < hi {
      KeptNothing(lo, hi - 1, away);
    }
  }

  lemma {:induction false} KeptAll(lo: nat, hi: nat)
    requires lo <= hi
    ensures Kept(lo, hi, {}) == seq(hi - lo, i => lo + i)
  {
    if lo < hi {
      KeptAll(lo, hi - 1);
    }
  }

  /** The positions between two kept ones are a contiguous stretch of all kept positions. */
  lemma KeptBetween(n: nat, away: set<nat>, k: nat, l: nat)
    requires k <= l < |Kept(0, n, away)|
    ensures var at := Kept(0, n, away); Kept(at[k], at[l] + 1, away) == at[k..l + 1]
  {
    var at := Kept(0, n, away);
    var p, q := at[k], at[l];
    KeptCount(n, away, k);
    KeptCount(n, away, l);
    KeptSplits(0, p, q + 1, away);
    KeptSplits(0, q + 1, n, away);
    var before, middle, after := Kept(0, p, away), Kept(p, q + 1, away), Kept(q + 1, n, away);
    assert |Kept(0, q + 1, away)| == l + 1;
    hide Kept;
    assert at == before + middle + after;
  }

  lemma KeptCount(n: nat, away: set<nat>, k: nat)
    requires k < |Kept(0, n, away)|
    ensures |Kept(0, Kept(0, n, away)[k], away)| == k && Kept(0, n, away)[k] !in away
    ensures forall l :: k <= l < |Kept(0, n, away)| ==> Kept(0, n, away)[k] <= Kept(0, n, away)[l]
  {
    KeptFacts(0, n, away);
    KeptIndex(0, n, away, Kept(0, n, away)[k]);
  }

  lemma {:induction false} KeptShifts(lo: nat, hi: nat, away: set<nat>, lo': nat, hi': nat, away': set<nat>)
    requires lo <= hi && hi' - lo' == hi - lo && forall i :: lo <= i < hi ==> (i in away <==> i + (lo' - lo) in away')
    ensures |Kept(lo', hi', away')| == |Kept(lo, hi, away)|
    ensures forall k :: 0 <= k < |Kept(lo, hi, away)| ==> Kept(lo', hi', away')[k] == Kept(lo, hi, away)[k] + (lo' - lo)
  {
    if lo < hi {
      var last, last' := hi - 1, hi' - 1;
      KeptShifts(lo, last, away, lo', last', away');
      var at, at' := Kept(lo, last, away), Kept(lo', last', away');
      assert last in away <==> last + (lo' - lo) in away';
      assert last' == last + (lo' - lo);
    }
  }

  lemma {:induction false} KeptAlike(lo: nat, hi: nat, away: set<nat>, away': set<nat>)
    requires forall i :: lo <= i < hi ==> (i in away <==> i in away')
    ensures Kept(lo, hi, away) == Kept(lo, hi, away')
  {
    if lo < hi {
      KeptAlike(lo, hi - 1, away, away');
    }
  }

  /** `s[p..q]`, both ends included, also stands in `t`, moved by `shift`. */
  predicate Stands(s: string, p: nat, q: nat, t: string, shift: int) {
    p <= q < |s| && 0 <= p + shift && q + shift < |t| && s[p..q + 1] == t[p + shift..q + shift + 1]
  }

  /** Two texts that share a stretch, filtered alike on it, share the filtered stretch. */
  lemma FilteringKeepsStretch(s: string, away: set<nat>, k: nat, l: nat, t: string, away': set<nat>, shift: int) returns (shift': int)
    requires k <= l < |Kept(0, |s|, away)|
    requires Stands(s, Kept(0, |s|, away)[k], Kept(0, |s|, away)[l], t, shift)
    requires forall i :: Kept(0, |s|, away)[k] <= i <= Kept(0, |s|, away)[l] ==> (i in away <==> i + shift in away')
    ensures Stands(Pick(s, Kept(0, |s|, away)), k, l, Pick(t, Kept(0, |t|, away')), shift')
  {
    var at, at' := Kept(0, |s|, away), Kept(0, |t|, away');
    shift' := PositionsShift(|s|, away, k, l, |t|, away', shift);
    hide Kept;
    KeptCount(|s|, away, k);
    forall m | k <= m <= l ensures s[at[m]] == t[at'[m + shift']] {
      KeptCount(|s|, away, m);
      assert at[k] <= at[m] <= at[l];
      SameCharacter(s, at[k], at[l], t, shift, at[m]);
    }
    PicksAgree(s, at, k, l, t, at', shift');
  }

  lemma PicksAgree(s: string, at: seq<nat>, k: nat, l: nat, t: string, at': seq<nat>, shift: int)
    requires (forall m :: 0 <= m < |at| ==> at[m] < |s|) && (forall m :: 0 <= m < |at'| ==> at'[m] < |t|)
    requires k <= l < |at| && 0 <= k + shift && l + shift < |at'|
    requires forall m :: k <= m <= l ==> s[at[m]] == t[at'[m + shift]]
    ensures Stands(Pick(s, at), k, l, Pick(t, at'), shift)
  {
    var left, right := Pick(s, at)[k..l + 1], Pick(t, at')[k + shift..l + shift + 1];
    forall m: nat | m < |left| ensures left[m] == right[m] {
      assert s[at[m + k]] == t[at'[m + k + shift]];
    }
    assert left == right;
  }

  lemma PositionsShift(n: nat, away: set<nat>, k: nat, l: nat, n': nat, away': set<nat>, shift: int) returns (shift': int)
    requires k <= l < |Kept(0, n, away)|
    requires 0 <= Kept(0, n, away)[k] + shift && Kept(0, n, away)[l] + shift < n'
    requires forall i :: Kept(0, n, away)[k] <= i <= Kept(0, n, away)[l] ==> (i in away <==> i + shift in away')
    ensures 0 <= k + shift' && l + shift' < |Kept(0, n', away')|
    ensures forall m :: k <= m <= l ==> Kept(0, n', away')[m + shift'] == Kept(0, n, away)[m] + shift
  {
    hide Kept;
    var at, at' := Kept(0, n, away), Kept(0, n', away');
    var p, q := at[k], at[l] + 1;
    KeptCount(n, away, k);
    KeptBetween(n, away, k, l);
    shift' := WindowShifts(p, q, away, shift, n', away', k);
    SliceMoved(at, k, l, Kept(p, q, away), at', shift, shift');
  }

  lemma SliceMoved(at: seq<nat>, k: nat, l: nat, middle: seq<nat>, at': seq<nat>, shift: int, shift': int)
    requires k <= l < |at| && middle == at[k..l + 1] && 0 <= k + shift' && l + shift' < |at'|
    requires forall m :: 0 <= m < |middle| ==> at'[m + k + shift'] == middle[m] + shift
    ensures forall m :: k <= m <= l ==> at'[m + shift'] == at[m] + shift
  {
    forall m | k <= m <= l ensures at'[m + shift'] == at[m] + shift {
      assert middle[m - k] == at[m];
    }
  }

  lemma WindowShifts(p: nat, q: nat, away: set<nat>, shift: int, n': nat, away': set<nat>, k: nat) returns (shift': int)
    requires p <= q && 0 <= p + shift && q + shift <= n'
    requires forall i :: p <= i < q ==> (i in away <==> i + shift in away')
    ensures 0 <= k + shift' && k + |Kept(p, q, away)| + shift' <= |Kept(0, n', away')|
    ensures forall m :: 0 <= m < |Kept(p, q, away)| ==> Kept(0, n', away')[m + k + shift'] == Kept(p, q, away)[m] + shift
  {
    hide Kept;
    var p', q': nat := p + shift, q + shift;
    KeptShifts(p, q, away, p', q', away');
    KeptSplits(0, p', n', away');
    KeptSplits(p', q', n', away');
    var before, middle, after := Kept(0, p', away'), Kept(p', q', away'), Kept(q', n', away');
    shift' := |before| - k;
    assert Kept(0, n', away') == before + middle + after;
    forall m | 0 <= m < |middle| ensures Kept(0, n', away')[m + k + shift'] == middle[m] {
      assert m + k + shift' == |before| + m;
    }
  }

  lemma SameCharacter(s: string, p: nat, q: nat, t: string, shift: int, i: nat)
    requires p <= i <= q && Stands(s, p, q, t, shift)
    ensures s[i] == t[i + shift]
  {
    assert s[p..q + 1][i - p] == t[p + shift..q + shift + 1][i - p];
  }

  // ------------------------------------------------------------------ the four stages

  function FoldText(alphabet: Alphabet, value: string): string {
    if value == "" then "" else FoldText(alphabet, value[..|value| - 1]) + alphabet.fold(value[|value| - 1])
  }

  ghost function Folded(alphabet: Alphabet, value: string): Projection {
    if value == "" then Columns("", [])
    else
      var before, part := Folded(alphabet, value[..|value| - 1]), alphabet.fold(value[|value| - 1]);
      Columns(before.text + part, before.offsets + seq(|part|, _ => |value| - 1))
  }

  ghost function SoftHyphens(text: string): set<nat> {
    set i: nat | i < |text| && text[i] == '\U{AD}'
  }

  /** A hyphen at `h` after an alphanumeric character, then blanks, line breaks and blanks, up to an
      alphanumeric character at `c`; the line breaks stand at `a..b`. */
  ghost predicate Joined(alphabet: Alphabet, text: string, h: nat, a: nat, b: nat, c: nat) {
    && 0 < h < a < b <= c < |text|
    && alphabet.alnum(text[h - 1]) && IsHyphen(text[h]) && alphabet.alnum(text[c])
    && (forall i :: h < i < a ==> IsBlank(text[i]))
    && (forall i :: a <= i < b ==> IsLineBreak(text[i]))
    && (forall i :: b <= i < c ==> IsBlank(text[i]))
  }

  ghost predicate InWordBreak(alphabet: Alphabet, text: string, i: nat) {
    exists h: nat, a: nat, b: nat, c: nat :: Joined(alphabet, text, h, a, b, c) && h <= i < c
  }

  ghost function WordBreaks(alphabet: Alphabet, text: string): set<nat> {
    set i: nat | i < |text| && InWordBreak(alphabet, text, i)
  }

  /** White space that directly follows a word and has another word somewhere after it. */
  ghost predicate Separates(alphabet: Alphabet, text: string, i: nat)
    requires i < |text|
  {
    0 < i && !alphabet.space(text[i - 1]) && exists j :: i < j < |text| && !alphabet.space(text[j])
  }

  ghost function ExtraSpace(alphabet: Alphabet, text: string): set<nat> {
    set i: nat | i < |text| && alphabet.space(text[i]) && !Separates(alphabet, text, i)
  }

  function Blanked(alphabet: Alphabet, text: string): (r: string)
    ensures |r| == |text|
  {
    seq(|text|, i requires 0 <= i < |text| => if alphabet.space(text[i]) then ' ' else text[i])
  }

  ghost function Softened(p: Projection): Projection {
    Filtered(p, SoftHyphens(p.text))
  }

  /** Every word broken over a line end is joined; nothing else changes. */
  ghost function Dehyphenated(alphabet: Alphabet, p: Projection): Projection {
    Filtered(p, WordBreaks(alphabet, p.text))
  }

  /** One blank between words, none at either end. */
  ghost function Collapsed(alphabet: Alphabet, p: Projection): Projection {
    Filtered(Columns(Blanked(alphabet, p.text), p.offsets), ExtraSpace(alphabet, p.text))
  }

  ghost function Projected(alphabet: Alphabet, value: string, options: Options3): Projection {
    var folded := Folded(alphabet, value);
    var softened := if options.removeSoftHyphens then Softened(folded) else folded;
    var dehyphenated := if options.dehyphenate then Dehyphenated(alphabet, softened) else softened;
    if options.collapseWhitespace then Collapsed(alphabet, dehyphenated) else dehyphenated
  }

  // ------------------------------------------------------------------ the stages as the source runs them

  method FoldedWithOffsets(alphabet: Alphabet, value: string) returns (p: Projection)
    ensures p == Folded(alphabet, value)
  {
    var folded: string, offsets: seq<nat> := "", [];
    for index := 0 to |value|
      invariant |folded| == |offsets| && Columns(folded, offsets) == Folded(alphabet, value[..index])
    {
      assert value[..index + 1][..index] == value[..index];
      var part := alphabet.fold(value[index]);
      folded, offsets := folded + part, offsets + seq(|part|, _ => index);
    }
    assert value[..|value|] == value;
    p := Columns(folded, offsets);
  }

  method RemoveSoftHyphens(p: Projection) returns (r: Projection)
    ensures r == Softened(p)
  {
    var chars: string, mapped: seq<nat> := "", [];
    ghost var away := SoftHyphens(p.text);
    for index := 0 to |p.text|
      invariant |chars| == |mapped|
      invariant chars == Pick(p.text, Kept(0, index, away)) && mapped == Pick(p.offsets, Kept(0, index, away))
    {
      if p.text[index] != '\U{AD}' {
        OneMore(p, index, away);
        chars, mapped := chars + [p.text[index]], mapped + [p.offsets[index]];
      } else {
        OneLess(index, away);
      }
    }
    r := Columns(chars, mapped);
  }

  /** The scan from a hyphen finds the one way to complete a word break, if there is one. */
  lemma GreedyScan(alphabet: Alphabet, text: string, h: nat, a: nat, b: nat, c: nat)
    requires Standard(alphabet) && h < a <= b <= c <= |text| && h < |text|
    requires (forall i :: h < i < a ==> IsBlank(text[i])) && (a < |text| ==> !IsBlank(text[a]))
    requires (forall i :: a <= i < b ==> IsLineBreak(text[i])) && (b < |text| ==> !IsLineBreak(text[b]))
    requires (forall i :: b <= i < c ==> IsBlank(text[i])) && (c < |text| && b > a ==> !IsBlank(text[c]))
    ensures forall a': nat, b': nat, c': nat :: Joined(alphabet, text, h, a', b', c') ==> a' == a && b' == b && c' == c && a < b
  {
    forall a': nat, b': nat, c': nat | Joined(alphabet, text, h, a', b', c') ensures a' == a && b' == b && c' == c && a < b {
      assert IsLineBreak(text[a']) && IsLineBreak(text[b' - 1]);
      assert a' == a;
      assert b' < c' ==> IsBlank(text[b']);
      assert b <= b';
      assert b' <= b;
      assert c <= c';
    }
  }

  /** No word break begun before `index` reaches beyond it. */
  ghost predicate BreaksClosed(alphabet: Alphabet, text: string, index: nat) {
    forall h: nat, a: nat, b: nat, c: nat :: Joined(alphabet, text, h, a, b, c) && h < index ==> c <= index
  }

  lemma NotInBreak(alphabet: Alphabet, text: string, index: nat)
    requires BreaksClosed(alphabet, text, index) && index < |text|
    requires forall a: nat, b: nat, c: nat :: !Joined(alphabet, text, index, a, b, c)
    ensures index !in WordBreaks(alphabet, text) && BreaksClosed(alphabet, text, index + 1)
  {
  }

  lemma WholeBreak(alphabet: Alphabet, text: string, h: nat, a: nat, b: nat, c: nat)
    requires Standard(alphabet) && BreaksClosed(alphabet, text, h) && Joined(alphabet, text, h, a, b, c)
    requires forall a': nat, b': nat, c': nat :: Joined(alphabet, text, h, a', b', c') ==> c' == c
    ensures forall i :: h <= i < c ==> i in WordBreaks(alphabet, text)
    ensures BreaksClosed(alphabet, text, c)
  {
    forall h': nat, a': nat, b': nat, c': nat | Joined(alphabet, text, h', a', b', c') && h' < c ensures c' <= c {
      assert h' <= h;
    }
  }

  method DehyphenateLinebreaks(alphabet: Alphabet, p: Projection) returns (r: Projection)
    requires Standard(alphabet)
    ensures r == Dehyphenated(alphabet, p)
  {
    var value, n := p.text, |p.text|;
    ghost var away := WordBreaks(alphabet, value);
    var chars: string, mapped: seq<nat> := "", [];
    var index := 0;
    hide Joined, BreaksClosed, WordBreaks, Kept, Pick;
    BeginsEmpty(alphabet, p);
    while index < n
      invariant 0 <= index <= n && |chars| == |mapped| && BreaksClosed(alphabet, value, index)
      invariant chars == Pick(value, Kept(0, index, away)) && mapped == Pick(p.offsets, Kept(0, index, away))
      invariant chars == "" <==> index == 0
      invariant index > 0 ==> chars[|chars| - 1] == value[index - 1] || (index < n && alphabet.alnum(value[index]))
      decreases n - index
    {
      if value[index] in ['-', '\U{2010}', '\U{2011}'] && chars != "" && alphabet.alnum(chars[|chars| - 1]) {
        var next := BreakEnd(alphabet, value, index);
        if next > index {
          KeptSplits(0, index, next, away);
          KeptNothing(index, next, away);
          assert Kept(0, next, away) == Kept(0, index, away);
          index := next;
          continue;
        }
      } else {
        NoBreakWithout(alphabet, value, index);
      }
      NotInBreak(alphabet, value, index);
      OneMore(p, index, away);
      chars, mapped := chars + [value[index]], mapped + [p.offsets[index]];
      index := index + 1;
    }
    r := Columns(chars, mapped);
  }

  lemma BeginsEmpty(alphabet: Alphabet, p: Projection)
    ensures BreaksClosed(alphabet, p.text, 0)
    ensures Pick(p.text, Kept(0, 0, WordBreaks(alphabet, p.text))) == "" && Pick(p.offsets, Kept(0, 0, WordBreaks(alphabet, p.text))) == []
  {
  }

  lemma NoBreakWithout(alphabet: Alphabet, text: string, index: nat)
    requires index < |text| && !(index > 0 && IsHyphen(text[index]) && alphabet.alnum(text[index - 1]))
    ensures forall a: nat, b: nat, c: nat :: !Joined(alphabet, text, index, a, b, c)
  {
  }

  /** The look-ahead from a hyphen that follows a word: where the other half begins, or `index` if there is none. */
  method BreakEnd(alphabet: Alphabet, value: string, index: nat) returns (next: nat)
    requires Standard(alphabet) && BreaksClosed(alphabet, value, index)
    requires 0 < index < |value| && IsHyphen(value[index]) && alphabet.alnum(value[index - 1])
    ensures index <= next
    ensures next == index ==> forall a: nat, b: nat, c: nat :: !Joined(alphabet, value, index, a, b, c)
    ensures next > index ==> && next < |value| && alphabet.alnum(value[next]) && BreaksClosed(alphabet, value, next)
                             && forall i :: index <= i < next ==> i in WordBreaks(alphabet, value)
  {
    hide BreaksClosed, WordBreaks;
    var linebreak := SkipWhile(value, index + 1, c => c in [' ', '\t']);
    var cursor := SkipWhile(value, linebreak, c => c in ['\r', '\n']);
    next := cursor;
    if cursor > linebreak {
      next := SkipWhile(value, cursor, c => c in [' ', '\t']);
    }
    GreedyScan(alphabet, value, index, linebreak, cursor, next);
    if cursor > linebreak && next < |value| && alphabet.alnum(value[next]) {
      assert Joined(alphabet, value, index, linebreak, cursor, next);
      hide Joined;
      WholeBreak(alphabet, value, index, linebreak, cursor, next);
    } else {
      next := index;
    }
  }

  method SkipWhile(text: string, from: nat, skipped: char -> bool) returns (to: nat)
    requires from <= |text|
    ensures from <= to <= |text|
    ensures (forall i :: from <= i < to ==> skipped(text[i])) && (to < |text| ==> !skipped(text[to]))
  {
    to := from;
    while to < |text| && skipped(text[to])
      invariant from <= to <= |text| && forall i :: from <= i < to ==> skipped(text[i])
    {
      to := to + 1;
    }
  }

  lemma OneMore(p: Projection, index: nat, away: set<nat>)
    requires index < |p.text| && index !in away
    ensures Pick(p.text, Kept(0, index + 1, away)) == Pick(p.text, Kept(0, index, away)) + [p.text[index]]
    ensures Pick(p.offsets, Kept(0, index + 1, away)) == Pick(p.offsets, Kept(0, index, away)) + [p.offsets[index]]
  {
  }

  predicate SpaceBefore(alphabet: Alphabet, text: string, i: nat)
    requires i <= |text|
  {
    i == 0 || alphabet.space(text[i - 1])
  }

  /** White space at the start or directly after other white space. */
  function Repeated(alphabet: Alphabet, text: string): set<nat> {
    set i: nat | i < |text| && alphabet.space(text[i]) && SpaceBefore(alphabet, text, i)
  }

  /** Dropping repeated white space and then a final blank leaves exactly the separating blanks. */
  lemma TrimmedTail(alphabet: Alphabet, text: string, m: nat)
    requires m <= |text| && (m > 0 ==> !alphabet.space(text[m - 1])) && forall i :: m <= i < |text| ==> alphabet.space(text[i])
    ensures Kept(0, |text|, ExtraSpace(alphabet, text)) == Kept(0, m, Repeated(alphabet, text))
    ensures Kept(0, |text|, Repeated(alphabet, text)) == Kept(0, m, Repeated(alphabet, text)) + (if 0 < m < |text| then [m] else [])
    ensures m > 0 ==> Kept(0, m, Repeated(alphabet, text)) == Kept(0, m - 1, Repeated(alphabet, text)) + [m - 1]
    ensures m == 0 ==> Kept(0, m, Repeated(alphabet, text)) == []
  {
    var extra, repeated, n := ExtraSpace(alphabet, text), Repeated(alphabet, text), |text|;
    assert forall i :: m <= i < n ==> i in extra;
    assert forall i :: m < i < n ==> i in repeated;
    assert m == 0 && n > 0 ==> 0 in repeated;
    assert m < n && m > 0 ==> m !in repeated;
    assert m > 0 ==> m - 1 !in repeated;
    AlikeUpToWord(alphabet, text, m);
    hide ExtraSpace, Repeated;
    KeptAlike(0, m, extra, repeated);
    KeptNothing(m, n, extra);
    LastKept(m, n, repeated);
    hide Kept;
    KeptSplits(0, m, n, extra);
    KeptSplits(0, m, n, repeated);
  }

  lemma AlikeUpToWord(alphabet: Alphabet, text: string, m: nat)
    requires m <= |text| && (m > 0 ==> !alphabet.space(text[m - 1]))
    ensures forall i :: 0 <= i < m ==> (i in ExtraSpace(alphabet, text) <==> i in Repeated(alphabet, text))
  {
    forall i: nat | i < m ensures i in ExtraSpace(alphabet, text) <==> i in Repeated(alphabet, text) {
      if alphabet.space(text[i]) && !SpaceBefore(alphabet, text, i) {
        assert i < m - 1 < |text| && !alphabet.space(text[m - 1]);
        assert Separates(alphabet, text, i);
      }
    }
  }

  lemma LastKept(m: nat, n: nat, away: set<nat>)
    requires m <= n && forall i :: m < i < n ==> i in away
    ensures m < n && m !in away ==> Kept(m, n, away) == [m]
    ensures m == n || m in away ==> Kept(m, n, away) == []
    ensures m > 0 && m - 1 !in away ==> Kept(0, m, away) == Kept(0, m - 1, away) + [m - 1]
    ensures Kept(0, 0, away) == []
  {
    if m < n {
      KeptSplits(m, m + 1, n, away);
      KeptNothing(m + 1, n, away);
      assert Kept(m, m + 1, away) == if m in away then [] else [m];
    }
  }

  lemma {:induction false} WordEnd(alphabet: Alphabet, text: string, n: nat) returns (m: nat)
    requires n <= |text|
    ensures m <= n && (m > 0 ==> !alphabet.space(text[m - 1])) && forall i :: m <= i < n ==> alphabet.space(text[i])
  {
    m := n;
    if n > 0 && alphabet.space(text[n - 1]) {
      m := WordEnd(alphabet, text, n - 1);
    }
  }

  lemma OneLess(index: nat, away: set<nat>)
    ensures index in away ==> Kept(0, index + 1, away) == Kept(0, index, away)
  {
  }

  method CollapseWhitespace(alphabet: Alphabet, p: Projection) returns (r: Projection)
    requires Standard(alphabet)
    ensures r == Collapsed(alphabet, p)
  {
    var value, n := p.text, |p.text|;
    ghost var blanked := Columns(Blanked(alphabet, value), p.offsets);
    ghost var repeated := Repeated(alphabet, value);
    var chars: string, mapped: seq<nat> := "", [];
    var whitespace := false;
    for index := 0 to n
      invariant |chars| == |mapped|
      invariant chars == Pick(blanked.text, Kept(0, index, repeated)) && mapped == Pick(p.offsets, Kept(0, index, repeated))
      invariant whitespace || index == 0 <==> SpaceBefore(alphabet, value, index)
      invariant chars == "" ==> SpaceBefore(alphabet, value, index)
      invariant index == 0 ==> chars == ""
    {
      assert blanked.text[index] == if alphabet.space(value[index]) then ' ' else value[index];
      hide Pick, Kept, Blanked;
      if index in repeated {
        OneLess(index, repeated);
      } else {
        OneMore(blanked, index, repeated);
      }
      if alphabet.space(value[index]) {
        if chars != "" && !whitespace {
          chars, mapped := chars + [' '], mapped + [p.offsets[index]];
        }
        whitespace := true;
        continue;
      }
      chars, mapped := chars + [value[index]], mapped + [p.offsets[index]];
      whitespace := false;
    }
    ghost var m := WordEnd(alphabet, value, n);
    TrimmedTail(alphabet, value, m);
    if chars != "" && chars[|chars| - 1] == ' ' {
      chars, mapped := chars[..|chars| - 1], mapped[..|mapped| - 1];
    }
    r := Columns(chars, mapped);
  }

  /** What each repair removes is gone from the projection, whatever other repairs are made with it. */
  lemma RepairsLast(alphabet: Alphabet, value: string, options: Options3)
    requires Standard(alphabet)
    ensures var p := Projected(alphabet, value, options);
            && (options.removeSoftHyphens ==> '\U{AD}' !in p.text)
            && (options.dehyphenate && !options.collapseWhitespace ==> WordBreaks(alphabet, p.text) == {})
            && (options.collapseWhitespace ==> ExtraSpace(alphabet, p.text) == {} && Blanked(alphabet, p.text) == p.text)
  {
    var folded := Folded(alphabet, value);
    var softened := if options.removeSoftHyphens then Softened(folded) else folded;
    var joined := if options.dehyphenate then Dehyphenated(alphabet, softened) else softened;
    if options.removeSoftHyphens {
      SoftHyphensAreGone(folded);
      FilteringInventsNothing(softened, WordBreaks(alphabet, softened.text), '\U{AD}');
      NoBlankIsSoft(alphabet, joined);
    }
    CollapsedIsTight(alphabet, joined);
    if options.dehyphenate {
      BreaksAreGone(alphabet, softened);
    }
  }

  lemma SoftHyphensAreGone(p: Projection)
    ensures '\U{AD}' !in Softened(p).text
  {
    KeptFacts(0, |p.text|, SoftHyphens(p.text));
  }

  lemma FilteringInventsNothing(p: Projection, away: set<nat>, c: char)
    requires c !in p.text
    ensures c !in Filtered(p, away).text
  {
  }

  lemma NoBlankIsSoft(alphabet: Alphabet, p: Projection)
    requires '\U{AD}' !in p.text
    ensures '\U{AD}' !in Collapsed(alphabet, p).text
  {
    var blanked := Columns(Blanked(alphabet, p.text), p.offsets);
    assert '\U{AD}' !in blanked.text;
    FilteringInventsNothing(blanked, ExtraSpace(alphabet, p.text), '\U{AD}');
  }

  lemma BreaksAreGone(alphabet: Alphabet, p: Projection)
    requires Standard(alphabet)
    ensures WordBreaks(alphabet, Dehyphenated(alphabet, p).text) == {}
  {
    var d := Dehyphenated(alphabet, p);
    forall h: nat, a: nat, b: nat, c: nat ensures !Joined(alphabet, d.text, h, a, b, c) {
      NoBreakLeft(alphabet, p.text, h, a, b, c);
    }
  }

  method Variant(alphabet: Alphabet, value: string, options: Options3) returns (p: Projection)
    requires Standard(alphabet)
    ensures p == Projected(alphabet, value, options)
    ensures options == Options3(false, false, false) ==> p == Folded(alphabet, value)
    ensures options.removeSoftHyphens ==> '\U{AD}' !in p.text
    ensures options.dehyphenate && !options.collapseWhitespace ==> WordBreaks(alphabet, p.text) == {}
    ensures options.collapseWhitespace ==>
              && ExtraSpace(alphabet, p.text) == {} && Blanked(alphabet, p.text) == p.text
              && p == Collapsed(alphabet, Projected(alphabet, value, options.(collapseWhitespace := false)))
  {
    RepairsLast(alphabet, value, options);
    p := FoldedWithOffsets(alphabet, value);
    if options.removeSoftHyphens {
      p := RemoveSoftHyphens(p);
    }
    if options.dehyphenate {
      p := DehyphenateLinebreaks(alphabet, p);
    }
    if options.collapseWhitespace {
      p := CollapseWhitespace(alphabet, p);
    }
  }

  // ------------------------------------------------------------------ offsets point back

  ghost predicate PointsInto(p: Projection, n: nat) {
    && (forall k :: 0 <= k < |p.offsets| ==> p.offsets[k] < n)
    && (forall k, l :: 0 <= k < l < |p.offsets| ==> p.offsets[k] <= p.offsets[l])
  }

  lemma {:induction false} FoldedPointsInto(alphabet: Alphabet, value: string)
    ensures PointsInto(Folded(alphabet, value), |value|) && Folded(alphabet, value).text == FoldText(alphabet, value)
  {
    if value != "" {
      FoldedPointsInto(alphabet, value[..|value| - 1]);
    }
  }

  lemma FilteredPointsInto(p: Projection, away: set<nat>, n: nat)
    requires PointsInto(p, n)
    ensures PointsInto(Filtered(p, away), n)
  {
    var at := Kept(0, |p.text|, away);
    KeptFacts(0, |p.text|, away);
    forall k, l | 0 <= k < l < |at| ensures Pick(p.offsets, at)[k] <= Pick(p.offsets, at)[l] {
      assert at[k] < at[l];
    }
  }

  /** Offsets stay in range and never go backwards through any combination of repairs. */
  lemma OffsetsPointBack(alphabet: Alphabet, value: string, options: Options3)
    ensures PointsInto(Projected(alphabet, value, options), |value|)
  {
    var folded := Folded(alphabet, value);
    FoldedPointsInto(alphabet, value);
    FilteredPointsInto(folded, SoftHyphens(folded.text), |value|);
    var softened := if options.removeSoftHyphens then Softened(folded) else folded;
    FilteredPointsInto(softened, WordBreaks(alphabet, softened.text), |value|);
    var joined := if options.dehyphenate then Dehyphenated(alphabet, softened) else softened;
    assert PointsInto(Columns(Blanked(alphabet, joined.text), joined.offsets), |value|);
    FilteredPointsInto(Columns(Blanked(alphabet, joined.text), joined.offsets), ExtraSpace(alphabet, joined.text), |value|);
  }

  // ------------------------------------------------------------------ repairs are idempotent

  lemma FilteredByNothing(p: Projection)
    ensures Filtered(p, {}) == p
  {
    KeptAll(0, |p.text|);
    assert Filtered(p, {}).text == p.text && Filtered(p, {}).offsets == p.offsets;
  }

  /** Where a joined text goes on with a non-alphanumeric character, the original did too. */
  lemma JoinedNeighbours(alphabet: Alphabet, text: string, k: nat)
    requires Standard(alphabet)
    requires var at := Kept(0, |text|, WordBreaks(alphabet, text));
             k + 1 < |at| && (!alphabet.alnum(text[at[k]]) || !alphabet.alnum(text[at[k + 1]]))
    ensures var at := Kept(0, |text|, WordBreaks(alphabet, text)); at[k + 1] == at[k] + 1
  {
    var away := WordBreaks(alphabet, text);
    GapIsAway(|text|, away, k);
    hide Kept, WordBreaks;
    var p, q := Kept(0, |text|, away)[k], Kept(0, |text|, away)[k + 1];
    if p + 1 < q {
      BreakBetween(alphabet, text, p, q);
    }
  }

  lemma NothingBetween(at: seq<nat>, away: set<nat>, k: nat, m: nat)
    requires Ascending(at, away) && k + 1 < |at| && m < |at|
    ensures at[m] <= at[k] || at[k + 1] <= at[m]
  {
  }

  lemma GapIsAway(n: nat, away: set<nat>, k: nat)
    requires k + 1 < |Kept(0, n, away)|
    ensures var at := Kept(0, n, away);
            at[k] < at[k + 1] && at[k] !in away && at[k + 1] !in away && forall i :: at[k] < i < at[k + 1] ==> i in away
  {
    KeptFacts(0, n, away);
    hide Kept;
    var at := Kept(0, n, away);
    forall i: nat | at[k] < i < at[k + 1] ensures i in away {
      if i !in away {
        KeptIndex(0, n, away, i);
        var m := |Kept(0, i, away)|;
        NothingBetween(at, away, k, m);
      }
    }
  }

  lemma BreakBetween(alphabet: Alphabet, text: string, p: nat, q: nat)
    requires p + 1 < q < |text| && p !in WordBreaks(alphabet, text) && q !in WordBreaks(alphabet, text)
    requires forall i :: p < i < q ==> i in WordBreaks(alphabet, text)
    ensures alphabet.alnum(text[p]) && alphabet.alnum(text[q])
  {
    assert p + 1 in WordBreaks(alphabet, text) && q - 1 in WordBreaks(alphabet, text);
    assert InWordBreak(alphabet, text, p + 1) && InWordBreak(alphabet, text, q - 1);
    assert !InWordBreak(alphabet, text, p) && !InWordBreak(alphabet, text, q);
    BreakEdges(alphabet, text, p, q);
  }

  lemma BreakEdges(alphabet: Alphabet, text: string, p: nat, q: nat)
    requires p + 1 < q < |text| && !InWordBreak(alphabet, text, p) && !InWordBreak(alphabet, text, q)
    requires InWordBreak(alphabet, text, p + 1) && InWordBreak(alphabet, text, q - 1)
    ensures alphabet.alnum(text[p]) && alphabet.alnum(text[q])
  {
    var h: nat, a: nat, b: nat, c: nat :| Joined(alphabet, text, h, a, b, c) && h <= p + 1 < c;
    assert h <= p ==> InWordBreak(alphabet, text, p);
    assert h == p + 1;
    var h': nat, a': nat, b': nat, c': nat :| Joined(alphabet, text, h', a', b', c') && h' <= q - 1 < c';
    assert q < c' ==> InWordBreak(alphabet, text, q);
    assert c' == q;
  }

  lemma NoBreakLeft(alphabet: Alphabet, text: string, h: nat, a: nat, b: nat, c: nat)
    requires Standard(alphabet)
    ensures !Joined(alphabet, Pick(text, Kept(0, |text|, WordBreaks(alphabet, text))), h, a, b, c)
  {
    var away := WordBreaks(alphabet, text);
    var at := Kept(0, |text|, away);
    var joined := Pick(text, at);
    if Joined(alphabet, joined, h, a, b, c) {
      hide Kept, WordBreaks, Pick;
      BreakHasNoWord(alphabet, joined, h, a, b, c);
      PickedCharacters(text, at);
      JoinedNeighbours(alphabet, text, h - 1);
      StretchIsContiguous(alphabet, text, h, c);
      KeptCount(|text|, away, h);
      JoinedBefore(alphabet, text, joined, at, h, a, b, c);
    }
  }

  lemma PickedCharacters(text: string, at: seq<nat>)
    requires forall k :: 0 <= k < |at| ==> at[k] < |text|
    ensures |Pick(text, at)| == |at| && forall k :: 0 <= k < |at| ==> Pick(text, at)[k] == text[at[k]]
  {
  }

  lemma BreakHasNoWord(alphabet: Alphabet, text: string, h: nat, a: nat, b: nat, c: nat)
    requires Standard(alphabet) && Joined(alphabet, text, h, a, b, c)
    ensures forall i :: h <= i < c ==> !alphabet.alnum(text[i])
  {
  }

  /** A joined text has no word break left. */
  lemma DehyphenationIsIdempotent(alphabet: Alphabet, p: Projection)
    requires Standard(alphabet)
    ensures Dehyphenated(alphabet, Dehyphenated(alphabet, p)) == Dehyphenated(alphabet, p)
  {
    var d := Dehyphenated(alphabet, p);
    forall h: nat, a: nat, b: nat, c: nat ensures !Joined(alphabet, d.text, h, a, b, c) {
      NoBreakLeft(alphabet, p.text, h, a, b, c);
    }
    assert WordBreaks(alphabet, d.text) == {};
    FilteredByNothing(d);
  }

  lemma JoinedBefore(alphabet: Alphabet, text: string, joined: string, at: seq<nat>, h: nat, a: nat, b: nat, c: nat)
    requires |at| == |joined| && (forall i :: 0 <= i < |at| ==> at[i] < |text| && joined[i] == text[at[i]])
    requires Joined(alphabet, joined, h, a, b, c) && at[h - 1] + 1 == at[h]
    requires forall i :: h <= i <= c ==> at[i] == at[h] + (i - h)
    ensures at[h] in WordBreaks(alphabet, text)
  {
    var shift := at[h] - h;
    forall i | at[h] <= i <= at[c] ensures text[i] == joined[i - shift] {
      assert at[i - shift] == i;
    }
    assert text[at[h - 1]] == joined[h - 1];
    assert Joined(alphabet, text, at[h], a + shift, b + shift, c + shift);
  }

  lemma {:induction false} StretchIsContiguous(alphabet: Alphabet, text: string, h: nat, c: nat)
    requires Standard(alphabet)
    requires var at := Kept(0, |text|, WordBreaks(alphabet, text));
             && 0 < h <= c < |at| && forall i :: h <= i < c ==> !alphabet.alnum(text[at[i]])
    ensures var at := Kept(0, |text|, WordBreaks(alphabet, text));
            forall i :: h <= i <= c ==> at[i] == at[h] + (i - h)
    decreases c
  {
    if h < c {
      StretchIsContiguous(alphabet, text, h, c - 1);
      JoinedNeighbours(alphabet, text, c - 1);
    }
  }

  /** Collapsed text has single blanks between words and nothing around them. */
  lemma CollapsedIsTight(alphabet: Alphabet, p: Projection)
    requires Standard(alphabet)
    ensures ExtraSpace(alphabet, Collapsed(alphabet, p).text) == {}
    ensures Blanked(alphabet, Collapsed(alphabet, p).text) == Collapsed(alphabet, p).text
  {
    var text := p.text;
    var away := ExtraSpace(alphabet, text);
    var at, c := Kept(0, |text|, away), Collapsed(alphabet, p).text;
    forall k: nat | k < |c| && alphabet.space(c[k]) ensures c[k] == ' ' && Separates(alphabet, c, k) {
      var l := BlankStaysBetween(alphabet, text, k);
      assert !alphabet.space(c[k - 1]) && !alphabet.space(c[l]);
    }
  }

  /** A kept blank is kept directly after a kept word character and before another one. */
  lemma BlankStaysBetween(alphabet: Alphabet, text: string, k: nat) returns (l: nat)
    requires k < |Kept(0, |text|, ExtraSpace(alphabet, text))| && alphabet.space(text[Kept(0, |text|, ExtraSpace(alphabet, text))[k]])
    ensures var at := Kept(0, |text|, ExtraSpace(alphabet, text));
            0 < k < l < |at| && !alphabet.space(text[at[k - 1]]) && !alphabet.space(text[at[l]])
  {
    var away, n := ExtraSpace(alphabet, text), |text|;
    var i := Kept(0, n, away)[k];
    KeptCount(n, away, k);
    assert Separates(alphabet, text, i);
    var j: nat :| i < j < n && !alphabet.space(text[j]);
    assert i - 1 !in away && j !in away;
    hide ExtraSpace;
    assert |Kept(0, i, away)| == |Kept(0, i - 1, away)| + 1;
    KeptIndex(0, n, away, i - 1);
    KeptIndex(0, n, away, j);
    KeptIndex(0, j, away, i);
    l := |Kept(0, j, away)|;
  }

  lemma CollapsingIsIdempotent(alphabet: Alphabet, p: Projection)
    requires Standard(alphabet)
    ensures Collapsed(alphabet, Collapsed(alphabet, p)) == Collapsed(alphabet, p)
  {
    CollapsedIsTight(alphabet, p);
    FilteredByNothing(Collapsed(alphabet, p));
  }

  // ------------------------------------------------------------------ the source span of a match holds the match

  predicate OccursAt(pattern: string, text: string, start: nat) {
    start + |pattern| <= |text| && text[start..start + |pattern|] == pattern
  }

  ghost predicate Occurs(pattern: string, text: string) {
    exists start: nat :: OccursAt(pattern, text, start)
  }

  lemma {:induction false} FoldSplits(alphabet: Alphabet, value: string, m: nat)
    requires m <= |value|
    ensures FoldText(alphabet, value) == FoldText(alphabet, value[..m]) + FoldText(alphabet, value[m..])
  {
    if m == |value| {
      assert value[..m] == value;
    } else {
      var n := |value| - 1;
      FoldSplits(alphabet, value[..n], m);
      assert value[..n][..m] == value[..m] && value[m..][..n - m] == value[..n][m..];
    }
  }

  /** The folded characters of one source character stand together, after those of everything before it. */
  lemma {:induction false} FoldedFrom(alphabet: Alphabet, value: string, k: nat)
    requires k < |Folded(alphabet, value).text|
    ensures var i := Folded(alphabet, value).offsets[k];
            i < |value| && |FoldText(alphabet, value[..i])| <= k < |FoldText(alphabet, value[..i + 1])|
  {
    var n := |value| - 1;
    var before := Folded(alphabet, value[..n]);
    FoldedPointsInto(alphabet, value[..n]);
    FoldedPointsInto(alphabet, value);
    if k < |before.text| {
      FoldedFrom(alphabet, value[..n], k);
      var i := before.offsets[k];
      assert value[..n][..i] == value[..i] && value[..n][..i + 1] == value[..i + 1];
    } else {
      assert value[..n + 1] == value;
    }
  }

  /** Folding a piece of the source gives the matching piece of the folded source. */
  lemma FoldedPiece(alphabet: Alphabet, value: string, s0: nat, s1: nat) returns (a: nat, b: nat)
    requires s0 <= s1 <= |value|
    ensures a == |FoldText(alphabet, value[..s0])| && b == |FoldText(alphabet, value[..s1])|
    ensures a <= b <= |FoldText(alphabet, value)| && FoldText(alphabet, value[s0..s1]) == FoldText(alphabet, value)[a..b]
  {
    FoldSplits(alphabet, value, s1);
    FoldSplits(alphabet, value[..s1], s0);
    assert value[..s1][..s0] == value[..s0] && value[..s1][s0..] == value[s0..s1];
    a, b := |FoldText(alphabet, value[..s0])|, |FoldText(alphabet, value[..s1])|;
  }

  ghost function SoftText(options: Options3, text: string): string {
    if options.removeSoftHyphens then Pick(text, Kept(0, |text|, SoftHyphens(text))) else text
  }

  ghost function JoinedText(alphabet: Alphabet, options: Options3, text: string): string {
    if options.dehyphenate then Pick(text, Kept(0, |text|, WordBreaks(alphabet, text))) else text
  }

  ghost function TightText(alphabet: Alphabet, options: Options3, text: string): string {
    if options.collapseWhitespace then Pick(Blanked(alphabet, text), Kept(0, |text|, ExtraSpace(alphabet, text))) else text
  }

  /** Removing soft hyphens commutes with cutting out a piece. */
  lemma SoftPiece(options: Options3, text: string, a: nat, b: nat) returns (a': nat, b': nat)
    requires a <= b <= |text|
    ensures a' <= b' <= |SoftText(options, text)| && SoftText(options, text[a..b]) == SoftText(options, text)[a'..b']
    ensures !options.removeSoftHyphens ==> a' == a && b' == b
    ensures options.removeSoftHyphens ==> a' == |Kept(0, a, SoftHyphens(text))| && b' == |Kept(0, b, SoftHyphens(text))|
  {
    if !options.removeSoftHyphens {
      return a, b;
    }
    var away, piece := SoftHyphens(text), text[a..b];
    assert forall i :: a <= i < b ==> (i in away <==> i + (0 - a) in SoftHyphens(piece));
    a', b' := |Kept(0, a, away)|, |Kept(0, b, away)|;
    PieceIsKept(|text|, away, a, b, b - a, SoftHyphens(piece));
    var at, moved := Kept(0, |text|, away), Kept(0, b - a, SoftHyphens(piece));
    hide Kept, SoftHyphens, Pick;
    PickedPiece(text, a, b, at, a', b', moved);
  }

  lemma PieceIsKept(n: nat, away: set<nat>, a: nat, b: nat, size: nat, moved: set<nat>)
    requires a + size == b <= n && forall i :: a <= i < b ==> (i in away <==> i + (0 - a) in moved)
    ensures |Kept(0, a, away)| <= |Kept(0, b, away)| <= |Kept(0, n, away)|
    ensures |Kept(0, size, moved)| == |Kept(0, b, away)| - |Kept(0, a, away)|
    ensures forall m :: 0 <= m < |Kept(0, size, moved)| ==>
              Kept(0, n, away)[m + |Kept(0, a, away)|] == Kept(0, size, moved)[m] + a
  {
    hide Kept;
    KeptSplits(0, a, b, away);
    KeptSplits(0, b, n, away);
    var before, middle, after, piece := Kept(0, a, away), Kept(a, b, away), Kept(b, n, away), Kept(0, size, moved);
    KeptShifts(a, b, away, 0, size, moved);
    assert Kept(0, n, away) == before + middle + after;
    ShiftedInside(before, middle, after, piece, a);
  }

  lemma ShiftedInside(before: seq<nat>, middle: seq<nat>, after: seq<nat>, piece: seq<nat>, a: nat)
    requires |piece| == |middle| && forall m :: 0 <= m < |middle| ==> piece[m] == middle[m] + (0 - a)
    ensures forall m :: 0 <= m < |piece| ==> (before + middle + after)[m + |before|] == piece[m] + a
  {
  }

  lemma PickedPiece(text: string, a: nat, b: nat, at: seq<nat>, a': nat, b': nat, moved: seq<nat>)
    requires a <= b <= |text| && a' <= b' <= |at| && |moved| == b' - a'
    requires forall m :: 0 <= m < |at| ==> at[m] < |text|
    requires forall m :: 0 <= m < |moved| ==> moved[m] < b - a && at[m + a'] == moved[m] + a
    ensures Pick(text[a..b], moved) == Pick(text, at)[a'..b']
  {
    forall m: nat | m < |moved| ensures Pick(text[a..b], moved)[m] == Pick(text, at)[a'..b'][m] {
      assert at[m + a'] == moved[m] + a;
    }
    assert Pick(text[a..b], moved) == Pick(text, at)[a'..b'];
  }

  lemma JoinedInPiece(alphabet: Alphabet, text: string, a: nat, b: nat, h: nat, x: nat, y: nat, c: nat)
    requires a < h && a < b && c < b <= |text|
    ensures Joined(alphabet, text, h, x, y, c) ==> x >= a && y >= a && c >= a && Joined(alphabet, text[a..b], h - a, x - a, y - a, c - a)
    ensures x >= a && y >= a && c >= a && Joined(alphabet, text[a..b], h - a, x - a, y - a, c - a) ==> Joined(alphabet, text, h, x, y, c)
  {
    var piece := text[a..b];
    assert forall i :: 0 <= i < b - a ==> piece[i] == text[i + a];
    assert forall i :: a <= i < b ==> text[i] == piece[i - a];
  }

  lemma BreakEntersPiece(alphabet: Alphabet, text: string, a: nat, b: nat, p: nat, q: nat, i: nat)
    requires a <= p <= i <= q < b <= |text| && !InWordBreak(alphabet, text, p) && !InWordBreak(alphabet, text, q)
    requires InWordBreak(alphabet, text, i)
    ensures InWordBreak(alphabet, text[a..b], i - a)
  {
    var h: nat, x: nat, y: nat, c: nat :| Joined(alphabet, text, h, x, y, c) && h <= i < c;
    assert p < h && c <= q;
    JoinedInPiece(alphabet, text, a, b, h, x, y, c);
    hide Joined;
    assert Joined(alphabet, text[a..b], h - a, x - a, y - a, c - a) && h - a <= i - a < c - a;
  }

  lemma BreakLeavesPiece(alphabet: Alphabet, text: string, a: nat, b: nat, i: nat)
    requires a <= i < b <= |text| && InWordBreak(alphabet, text[a..b], i - a)
    ensures InWordBreak(alphabet, text, i)
  {
    var h: nat, x: nat, y: nat, c: nat :| Joined(alphabet, text[a..b], h, x, y, c) && h <= i - a < c;
    assert 0 < h && c < b - a;
    hide Joined;
    JoinedInPiece(alphabet, text, a, b, h + a, x + a, y + a, c + a);
    assert h + a - a == h && x + a - a == x && y + a - a == y && c + a - a == c;
    assert Joined(alphabet, text, h + a, x + a, y + a, c + a);
  }

  /** Within a piece of a text, the word breaks between two kept characters are those of the whole text. */
  lemma BreaksInPiece(alphabet: Alphabet, text: string, a: nat, b: nat, p: nat, q: nat)
    requires a <= p <= q < b <= |text| && p !in WordBreaks(alphabet, text) && q !in WordBreaks(alphabet, text)
    ensures forall i :: p <= i <= q ==> (i in WordBreaks(alphabet, text) <==> i + (0 - a) in WordBreaks(alphabet, text[a..b]))
  {
    assert !InWordBreak(alphabet, text, p) && !InWordBreak(alphabet, text, q);
    forall i: int | p <= i <= q ensures i in WordBreaks(alphabet, text) <==> i + (0 - a) in WordBreaks(alphabet, text[a..b]) {
      hide InWordBreak;
      if i in WordBreaks(alphabet, text) {
        BreakEntersPiece(alphabet, text, a, b, p, q, i);
      }
      if i - a in WordBreaks(alphabet, text[a..b]) {
        BreakLeavesPiece(alphabet, text, a, b, i);
      }
    }
  }

  lemma PieceStands(text: string, a: nat, b: nat, p: nat, q: nat)
    requires a <= p <= q < b <= |text|
    ensures Stands(text, p, q, text[a..b], 0 - a)
  {
    var left, right := text[p..q + 1], text[a..b][p - a..q - a + 1];
    forall i | 0 <= i < |left| ensures left[i] == right[i] {
      assert right[i] == text[a..b][p - a + i];
    }
    assert left == right;
  }

  /** Joining words commutes, between two kept characters, with cutting out a piece around them. */
  lemma JoinedPiece(alphabet: Alphabet, options: Options3, text: string, a: nat, b: nat, k: nat, l: nat) returns (shift: int)
    requires a <= b <= |text| && k <= l < |JoinedText(alphabet, options, text)|
    requires a <= Inner(|text|, WordBreaks(alphabet, text), options.dehyphenate, k)
    requires Inner(|text|, WordBreaks(alphabet, text), options.dehyphenate, l) < b
    ensures Stands(JoinedText(alphabet, options, text), k, l, JoinedText(alphabet, options, text[a..b]), shift)
  {
    hide WordBreaks, Kept, Stands;
    if options.dehyphenate {
      var away, piece := WordBreaks(alphabet, text), text[a..b];
      var p, q := Kept(0, |text|, away)[k], Kept(0, |text|, away)[l];
      KeptCount(|text|, away, k);
      KeptCount(|text|, away, l);
      PieceStands(text, a, b, p, q);
      BreaksInPiece(alphabet, text, a, b, p, q);
      shift := FilteringKeepsStretch(text, away, k, l, piece, WordBreaks(alphabet, piece), 0 - a);
    } else {
      PieceStands(text, a, b, k, l);
      shift := 0 - a;
    }
  }

  /** Index `k` of a filtered text, as an index of the text before the filter. */
  ghost function Inner(n: nat, away: set<nat>, used: bool, k: nat): nat
    requires k < if used then |Kept(0, n, away)| else n
  {
    if used then Kept(0, n, away)[k] else k
  }

  /** Between two word characters, white space collapses the same in any surroundings. */
  lemma TightStretch(alphabet: Alphabet, text: string, k: nat, l: nat, other: string, shift: int) returns (shift': int)
    requires k <= l < |Kept(0, |text|, ExtraSpace(alphabet, text))|
    requires var at := Kept(0, |text|, ExtraSpace(alphabet, text));
             Stands(text, at[k], at[l], other, shift) && !alphabet.space(text[at[k]]) && !alphabet.space(text[at[l]])
    ensures Stands(Pick(Blanked(alphabet, text), Kept(0, |text|, ExtraSpace(alphabet, text))), k, l,
                   Pick(Blanked(alphabet, other), Kept(0, |other|, ExtraSpace(alphabet, other))), shift')
  {
    var away, away' := ExtraSpace(alphabet, text), ExtraSpace(alphabet, other);
    var at := Kept(0, |text|, away);
    var p, q := at[k], at[l];
    forall i | p <= i <= q ensures (i in away <==> i + shift in away') && Blanked(alphabet, text)[i] == Blanked(alphabet, other)[i + shift] {
      SameSpace(alphabet, text, p, q, other, shift, i);
    }
    assert Blanked(alphabet, text)[p..q + 1] == Blanked(alphabet, other)[p + shift..q + shift + 1];
    shift' := FilteringKeepsStretch(Blanked(alphabet, text), away, k, l, Blanked(alphabet, other), away', shift);
  }

  lemma SameSpace(alphabet: Alphabet, text: string, p: nat, q: nat, other: string, shift: int, i: nat)
    requires p <= i <= q && Stands(text, p, q, other, shift) && !alphabet.space(text[p]) && !alphabet.space(text[q])
    ensures i in ExtraSpace(alphabet, text) <==> i + shift in ExtraSpace(alphabet, other)
    ensures text[i] == other[i + shift]
  {
    SameCharacter(text, p, q, other, shift, i);
    if p < i < q {
      SameCharacter(text, p, q, other, shift, i - 1);
    }
    SameCharacter(text, p, q, other, shift, p);
    SameCharacter(text, p, q, other, shift, q);
  }

  /** The text of a projection, without its offsets. */
  lemma ProjectedText(alphabet: Alphabet, value: string, options: Options3)
    ensures Projected(alphabet, value, options).text
         == TightText(alphabet, options, JoinedText(alphabet, options, SoftText(options, FoldText(alphabet, value))))
  {
    FoldedPointsInto(alphabet, value);
  }

  /** Follow one projected character back through the repairs to its folded character. */
  lemma TracedBack(alphabet: Alphabet, value: string, options: Options3, k: nat) returns (k2: nat, k1: nat, k0: nat)
    requires k < |Projected(alphabet, value, options).text|
    ensures var soft := SoftText(options, FoldText(alphabet, value)); var joined := JoinedText(alphabet, options, soft);
            && k2 < |joined| && k < (if options.collapseWhitespace then |Kept(0, |joined|, ExtraSpace(alphabet, joined))| else |joined|)
            && k2 == Inner(|joined|, ExtraSpace(alphabet, joined), options.collapseWhitespace, k)
            && k2 < (if options.dehyphenate then |Kept(0, |soft|, WordBreaks(alphabet, soft))| else |soft|)
            && k1 < |soft| && k1 == Inner(|soft|, WordBreaks(alphabet, soft), options.dehyphenate, k2)
    ensures var folded := Folded(alphabet, value);
            && k1 < (if options.removeSoftHyphens then |Kept(0, |folded.text|, SoftHyphens(folded.text))| else |folded.text|)
            && k0 == Inner(|folded.text|, SoftHyphens(folded.text), options.removeSoftHyphens, k1)
            && k0 < |folded.text| && Projected(alphabet, value, options).offsets[k] == folded.offsets[k0]
  {
    FoldedPointsInto(alphabet, value);
    ProjectedText(alphabet, value, options);
    var folded := Folded(alphabet, value);
    var soft := SoftText(options, folded.text);
    var joined := JoinedText(alphabet, options, soft);
    hide Kept, ExtraSpace, WordBreaks, SoftHyphens, Blanked;
    k2 := Inner(|joined|, ExtraSpace(alphabet, joined), options.collapseWhitespace, k);
    k1 := Inner(|soft|, WordBreaks(alphabet, soft), options.dehyphenate, k2);
    k0 := Inner(|folded.text|, SoftHyphens(folded.text), options.removeSoftHyphens, k1);
  }

  lemma InnerFacts(n: nat, away: set<nat>, used: bool, k: nat, l: nat)
    requires k <= l < if used then |Kept(0, n, away)| else n
    ensures Inner(n, away, used, k) <= Inner(n, away, used, l) < n
  {
    if used {
      KeptCount(n, away, k);
    }
  }

  /** An index lies within the filtered piece when its inner index lies within the piece. */
  lemma InnerInPiece(n: nat, away: set<nat>, k: nat, a: nat, b: nat)
    requires k < |Kept(0, n, away)| && a <= Kept(0, n, away)[k] < b <= n
    ensures |Kept(0, a, away)| <= k < |Kept(0, b, away)|
  {
    var p := Kept(0, n, away)[k];
    KeptCount(n, away, k);
    KeptIndex(0, b, away, p);
    hide Kept;
    KeptSplits(0, a, p, away);
  }

  /** A collapsed query begins and ends with a word character, and so does the text it stands for. */
  lemma MatchedEnds(alphabet: Alphabet, text: string, query: string, start: nat)
    requires Standard(alphabet)
    requires var shown := Pick(Blanked(alphabet, text), Kept(0, |text|, ExtraSpace(alphabet, text)));
             && query != "" && OccursAt(query, shown, start) && ExtraSpace(alphabet, query) == {}
    ensures var at := Kept(0, |text|, ExtraSpace(alphabet, text));
            && start + |query| <= |at|
            && !alphabet.space(text[at[start]]) && !alphabet.space(text[at[start + |query| - 1]])
  {
    var at := Kept(0, |text|, ExtraSpace(alphabet, text));
    var shown := Pick(Blanked(alphabet, text), at);
    var last: nat := |query| - 1;
    assert 0 !in ExtraSpace(alphabet, query) && last !in ExtraSpace(alphabet, query);
    assert !alphabet.space(query[0]) && !alphabet.space(query[last]);
    assert shown[start] == query[0];
    assert shown[start + last] == shown[start..start + |query|][last];
    hide Kept, ExtraSpace;
    assert shown[start] == Blanked(alphabet, text)[at[start]];
    assert shown[start + last] == Blanked(alphabet, text)[at[start + last]];
  }

  lemma QueryIsTight(alphabet: Alphabet, query: string, options: Options3)
    requires Standard(alphabet) && options.collapseWhitespace
    ensures ExtraSpace(alphabet, Projected(alphabet, query, options).text) == {}
  {
    var folded := Folded(alphabet, query);
    var softened := if options.removeSoftHyphens then Softened(folded) else folded;
    CollapsedIsTight(alphabet, if options.dehyphenate then Dehyphenated(alphabet, softened) else softened);
  }

  lemma TightPiece(alphabet: Alphabet, options: Options3, text: string, query: string, start: nat, k2: nat, l2: nat, other: string, shift: int)
    returns (shift': int)
    requires Standard(alphabet) && query != "" && OccursAt(query, TightText(alphabet, options, text), start)
    requires options.collapseWhitespace ==> ExtraSpace(alphabet, query) == {}
    requires options.collapseWhitespace ==> start + |query| <= |Kept(0, |text|, ExtraSpace(alphabet, text))|
    requires k2 == Inner(|text|, ExtraSpace(alphabet, text), options.collapseWhitespace, start)
    requires l2 == Inner(|text|, ExtraSpace(alphabet, text), options.collapseWhitespace, start + |query| - 1)
    requires Stands(text, k2, l2, other, shift)
    ensures Stands(TightText(alphabet, options, text), start, start + |query| - 1, TightText(alphabet, options, other), shift')
  {
    hide Kept, ExtraSpace, Blanked, Pick;
    shift' := shift;
    if options.collapseWhitespace {
      MatchedEnds(alphabet, text, query, start);
      shift' := TightStretch(alphabet, text, start, start + |query| - 1, other, shift);
    }
  }

  /** The source span reported for a match, projected again, contains the projected query. */
  lemma SpanHoldsTheMatch(alphabet: Alphabet, value: string, query: string, options: Options3, start: nat)
    requires Standard(alphabet) && Projected(alphabet, query, options).text != ""
    requires OccursAt(Projected(alphabet, query, options).text, Projected(alphabet, value, options).text, start)
    ensures var pattern, p := Projected(alphabet, query, options).text, Projected(alphabet, value, options);
            var sourceStart, sourceEnd := p.offsets[start], p.offsets[start + |pattern| - 1] + 1;
            && 0 <= sourceStart < sourceEnd <= |value|
            && Occurs(pattern, Projected(alphabet, value[sourceStart..sourceEnd], options).text)
  {
    hide Kept, ExtraSpace, WordBreaks, SoftHyphens, Blanked, Pick, Folded, FoldText, Stands, Inner, Projected;
    var p, pattern := Projected(alphabet, value, options), Projected(alphabet, query, options).text;
    var end := start + |pattern| - 1;
    var k2, k1, k0 := TracedBack(alphabet, value, options, start);
    var l2, l1, l0 := TracedBack(alphabet, value, options, end);
    var folded := Folded(alphabet, value);
    var soft := SoftText(options, folded.text);
    var joined := JoinedText(alphabet, options, soft);
    FoldedPointsInto(alphabet, value);
    ProjectedText(alphabet, value, options);
    InnerFacts(|joined|, ExtraSpace(alphabet, joined), options.collapseWhitespace, start, end);
    InnerFacts(|soft|, WordBreaks(alphabet, soft), options.dehyphenate, k2, l2);
    InnerFacts(|folded.text|, SoftHyphens(folded.text), options.removeSoftHyphens, k1, l1);
    FoldedFrom(alphabet, value, k0);
    FoldedFrom(alphabet, value, l0);
    var s0, s1 := folded.offsets[k0], folded.offsets[l0] + 1;
    var piece := value[s0..s1];
    var a, b := FoldedPiece(alphabet, value, s0, s1);
    var a', b' := SoftPiece(options, folded.text, a, b);
    InPieceAfterSoftening(options, folded.text, k1, k0, a, b, a', b');
    InPieceAfterSoftening(options, folded.text, l1, l0, a, b, a', b');
    var shift := JoinedPiece(alphabet, options, soft, a', b', k2, l2);
    var other := JoinedText(alphabet, options, soft[a'..b']);
    if options.collapseWhitespace {
      QueryIsTight(alphabet, query, options);
    }
    shift := TightPiece(alphabet, options, joined, pattern, start, k2, l2, other, shift);
    ProjectedText(alphabet, piece, options);
    StandsOccurs(pattern, p.text, start, TightText(alphabet, options, other), shift);
  }

  lemma InPieceAfterSoftening(options: Options3, text: string, k1: nat, k0: nat, a: nat, b: nat, a': nat, b': nat)
    requires k1 < if options.removeSoftHyphens then |Kept(0, |text|, SoftHyphens(text))| else |text|
    requires k0 == Inner(|text|, SoftHyphens(text), options.removeSoftHyphens, k1) && a <= k0 < b <= |text|
    requires !options.removeSoftHyphens ==> a' == a && b' == b
    requires options.removeSoftHyphens ==> a' == |Kept(0, a, SoftHyphens(text))| && b' == |Kept(0, b, SoftHyphens(text))|
    ensures a' <= k1 < b'
  {
    if options.removeSoftHyphens {
      InnerInPiece(|text|, SoftHyphens(text), k1, a, b);
    }
  }

  lemma StandsOccurs(pattern: string, text: string, start: nat, other: string, shift: int)
    requires pattern != "" && OccursAt(pattern, text, start) && Stands(text, start, start + |pattern| - 1, other, shift)
    ensures Occurs(pattern, other)
  {
    assert OccursAt(pattern, other, start + shift);
  }

  // ------------------------------------------------------------------ matching

  /** `str.find`. */
  method Find(text: string, pattern: string) returns (found: Option<nat>)
    ensures found.None? ==> !Occurs(pattern, text)
    ensures found.Some? ==> OccursAt(pattern, text, found.value)
                            && forall start :: 0 <= start < found.value ==> !OccursAt(pattern, text, start)
  {
    var start := 0;
    while start + |pattern| <= |text|
      invariant forall earlier :: 0 <= earlier < start ==> !OccursAt(pattern, text, earlier)
    {
      if text[start..start + |pattern|] == pattern {
        return Some(start);
      }
      start := start + 1;
    }
    found := None;
  }

  /** `str.count`: occurrences that do not overlap, taken from the left. */
  function Count(text: string, pattern: string, from: nat): nat
    requires pattern != ""
    decreases |text| - from
  {
    if from + |pattern| > |text| then 0
    else if OccursAt(pattern, text, from) then 1 + Count(text, pattern, from + |pattern|)
    else Count(text, pattern, from + 1)
  }

  lemma {:induction false} OccurrenceIsCounted(text: string, pattern: string, from: nat, start: nat)
    requires pattern != "" && from <= start && OccursAt(pattern, text, start)
    ensures Count(text, pattern, from) >= 1
    decreases start - from
  {
    if !OccursAt(pattern, text, from) {
      OccurrenceIsCounted(text, pattern, from + 1, start);
    }
  }

  /** Places from `from` on where the pattern stands, no two of them overlapping. */
  ghost predicate Apart(text: string, pattern: string, from: nat, starts: seq<nat>) {
    && (forall i :: 0 <= i < |starts| ==> from <= starts[i] && OccursAt(pattern, text, starts[i]))
    && (forall i, j :: 0 <= i < j < |starts| ==> starts[i] + |pattern| <= starts[j])
  }

  /** As many occurrences as are counted stand apart from each other. */
  lemma {:induction false} CountIsReached(text: string, pattern: string, from: nat) returns (starts: seq<nat>)
    requires pattern != ""
    ensures Apart(text, pattern, from, starts) && |starts| == Count(text, pattern, from)
    decreases |text| - from
  {
    if from + |pattern| > |text| {
      starts := [];
    } else if OccursAt(pattern, text, from) {
      var rest := CountIsReached(text, pattern, from + |pattern|);
      starts := [from] + rest;
    } else {
      starts := CountIsReached(text, pattern, from + 1);
    }
  }

  /** No more than are counted do: taking occurrences from the left wastes none. */
  lemma {:induction false} CountIsTheMost(text: string, pattern: string, from: nat, starts: seq<nat>)
    requires pattern != "" && Apart(text, pattern, from, starts)
    ensures |starts| <= Count(text, pattern, from)
    decreases |text| - from
  {
    if starts != [] {
      assert OccursAt(pattern, text, starts[0]);
      if OccursAt(pattern, text, from) {
        var rest := starts[1..];
        assert forall i :: 0 <= i < |rest| ==> rest[i] == starts[i + 1];
        CountIsTheMost(text, pattern, from + |pattern|, rest);
      } else {
        assert starts[0] != from;
        CountIsTheMost(text, pattern, from + 1, starts);
      }
    }
  }

  datatype Mode =
    | SUBSTRING_CASEFOLD_NFKC | SUBSTRING_SOFT_HYPHEN_REMOVED | SUBSTRING_LINEBREAK_DEHYPHENATED | SUBSTRING_WHITESPACE_NORMALIZED

  datatype DocumentTextMatch = DocumentTextMatch(count: nat, mode: Mode, sourceStart: nat, sourceEnd: nat)

  /** What each mode repairs. */
  ghost function RepairsOf(mode: Mode): Options3 {
    match mode
    case SUBSTRING_CASEFOLD_NFKC => Options3(false, false, false)
    case SUBSTRING_SOFT_HYPHEN_REMOVED => Options3(true, false, false)
    case SUBSTRING_LINEBREAK_DEHYPHENATED => Options3(true, true, false)
    case SUBSTRING_WHITESPACE_NORMALIZED => Options3(true, true, true)
  }

  /** The projected query is not empty and stands somewhere in the projected text. */
  ghost predicate Matches(alphabet: Alphabet, value: string, query: string, options: Options3) {
    var pattern := Projected(alphabet, query, options).text;
    pattern != "" && Occurs(pattern, Projected(alphabet, value, options).text)
  }

  /** The first place where the projected query stands in the projected text. */
  ghost predicate FirstAt(pattern: string, text: string, start: nat) {
    OccursAt(pattern, text, start) && forall earlier :: 0 <= earlier < start ==> !OccursAt(pattern, text, earlier)
  }

  /** The hit counts the most occurrences that stand apart, and cites the source span of the first one. */
  ghost predicate Cites(p: Projection, pattern: string, hit: DocumentTextMatch)
    requires pattern != ""
  {
    && (exists starts :: Apart(p.text, pattern, 0, starts) && |starts| == hit.count)
    && (forall starts :: Apart(p.text, pattern, 0, starts) ==> |starts| <= hit.count)
    && exists start: nat :: FirstAt(pattern, p.text, start)
                            && hit.sourceStart == p.offsets[start] && hit.sourceEnd == p.offsets[start + |pattern| - 1] + 1
  }

  /** What a reader may rely on: the cited source span, repaired the same way, contains the repaired query. */
  ghost predicate Backed(alphabet: Alphabet, value: string, query: string, options: Options3, hit: DocumentTextMatch) {
    var pattern := Projected(alphabet, query, options).text;
    && pattern != "" && Cites(Projected(alphabet, value, options), pattern, hit)
    && hit.sourceStart < hit.sourceEnd <= |value| && hit.count >= 1
    && Occurs(pattern, Projected(alphabet, value[hit.sourceStart..hit.sourceEnd], options).text)
  }

  ghost predicate MatchesUnder(alphabet: Alphabet, value: string, query: string, mode: Mode) {
    Matches(alphabet, value, query, RepairsOf(mode))
  }

  method MatchDocumentText(alphabet: Alphabet, value: Option<string>, query: string) returns (hit: Option<DocumentTextMatch>)
    requires Standard(alphabet)
    ensures hit.None? <==> value.None? || query == "" || forall mode :: !MatchesUnder(alphabet, value.value, query, mode)
    ensures hit.Some? ==> && MatchesUnder(alphabet, value.value, query, hit.value.mode)
                          && Backed(alphabet, value.value, query, RepairsOf(hit.value.mode), hit.value) && hit.value.count >= 1
    ensures hit.Some? && hit.value.mode != SUBSTRING_CASEFOLD_NFKC ==> !MatchesUnder(alphabet, value.value, query, SUBSTRING_CASEFOLD_NFKC)
    ensures hit.Some? && hit.value.mode in {SUBSTRING_LINEBREAK_DEHYPHENATED, SUBSTRING_WHITESPACE_NORMALIZED} ==>
              !MatchesUnder(alphabet, value.value, query, SUBSTRING_SOFT_HYPHEN_REMOVED)
    ensures hit.Some? && hit.value.mode == SUBSTRING_WHITESPACE_NORMALIZED ==>
              !MatchesUnder(alphabet, value.value, query, SUBSTRING_LINEBREAK_DEHYPHENATED)
  {
    if value.None? || query == "" {
      return None;
    }
    hide MatchesUnder, Backed;
    var strategies := [(SUBSTRING_CASEFOLD_NFKC, Options3(false, false, false)),
                       (SUBSTRING_SOFT_HYPHEN_REMOVED, Options3(true, false, false)),
                       (SUBSTRING_LINEBREAK_DEHYPHENATED, Options3(true, true, false)),
                       (SUBSTRING_WHITESPACE_NORMALIZED, Options3(true, true, true))];
    for s := 0 to |strategies|
      invariant forall t :: 0 <= t < s ==> !MatchesUnder(alphabet, value.value, query, strategies[t].0)
    {
      assert RepairsOf(strategies[s].0) == strategies[s].1;
      hit := TryStrategy(alphabet, value.value, query, strategies[s].0, strategies[s].1);
      if hit.Some? {
        EarlierModes(alphabet, value.value, query, strategies, s);
        return;
      }
    }
    EarlierModes(alphabet, value.value, query, strategies, 4);
    hit := None;
  }

  lemma EarlierModes(alphabet: Alphabet, value: string, query: string, strategies: seq<(Mode, Options3)>, n: nat)
    requires |strategies| == 4 && strategies[0].0 == SUBSTRING_CASEFOLD_NFKC && strategies[1].0 == SUBSTRING_SOFT_HYPHEN_REMOVED
    requires strategies[2].0 == SUBSTRING_LINEBREAK_DEHYPHENATED && strategies[3].0 == SUBSTRING_WHITESPACE_NORMALIZED
    requires n <= 4 && forall t :: 0 <= t < n ==> !MatchesUnder(alphabet, value, query, strategies[t].0)
    ensures n > 0 ==> !MatchesUnder(alphabet, value, query, SUBSTRING_CASEFOLD_NFKC)
    ensures n > 1 ==> !MatchesUnder(alphabet, value, query, SUBSTRING_SOFT_HYPHEN_REMOVED)
    ensures n > 2 ==> !MatchesUnder(alphabet, value, query, SUBSTRING_LINEBREAK_DEHYPHENATED)
    ensures n == 4 ==> forall mode :: !MatchesUnder(alphabet, value, query, mode)
  {
    hide MatchesUnder;
    forall mode | n == 4 ensures !MatchesUnder(alphabet, value, query, mode) {
      match mode
      case SUBSTRING_CASEFOLD_NFKC => assert !MatchesUnder(alphabet, value, query, strategies[0].0);
      case SUBSTRING_SOFT_HYPHEN_REMOVED => assert !MatchesUnder(alphabet, value, query, strategies[1].0);
      case SUBSTRING_LINEBREAK_DEHYPHENATED => assert !MatchesUnder(alphabet, value, query, strategies[2].0);
      case SUBSTRING_WHITESPACE_NORMALIZED => assert !MatchesUnder(alphabet, value, query, strategies[3].0);
    }
  }

  /** One round of the loop over the strategies. */
  method TryStrategy(alphabet: Alphabet, value: string, query: string, mode: Mode, options: Options3) returns (hit: Option<DocumentTextMatch>)
    requires Standard(alphabet) && options == RepairsOf(mode)
    ensures hit.Some? <==> MatchesUnder(alphabet, value, query, mode)
    ensures hit.Some? ==> hit.value.mode == mode && Backed(alphabet, value, query, RepairsOf(mode), hit.value) && hit.value.count >= 1
  {
    hide Projected, Occurs, Backed, Blanked, ExtraSpace, WordBreaks;
    var projected := Variant(alphabet, value, options);
    var projectedQuery := Variant(alphabet, query, options);
    var pattern := projectedQuery.text;
    if pattern == "" || projected.offsets == [] {
      NothingToFind(alphabet, value, query, options);
      return None;
    }
    var found := Find(projected.text, pattern);
    if found.None? {
      return None;
    }
    FoundOccurs(pattern, projected.text, found.value);
    hit := Some(DocumentTextMatch(Count(projected.text, pattern, 0), mode,
                                  projected.offsets[found.value], projected.offsets[found.value + |pattern| - 1] + 1));
    BackedByFind(alphabet, value, query, options, found.value, hit.value);
  }

  lemma BackedByFind(alphabet: Alphabet, value: string, query: string, options: Options3, start: nat, hit: DocumentTextMatch)
    requires Standard(alphabet) && Projected(alphabet, query, options).text != ""
    requires FirstAt(Projected(alphabet, query, options).text, Projected(alphabet, value, options).text, start)
    requires var p, pattern := Projected(alphabet, value, options), Projected(alphabet, query, options).text;
             && hit.count == Count(p.text, pattern, 0)
             && hit.sourceStart == p.offsets[start] && hit.sourceEnd == p.offsets[start + |pattern| - 1] + 1
    ensures Backed(alphabet, value, query, options, hit) && hit.count >= 1
  {
    hide Projected, Occurs, Apart, Count;
    var p, pattern := Projected(alphabet, value, options), Projected(alphabet, query, options).text;
    SpanHoldsTheMatch(alphabet, value, query, options, start);
    OccurrenceIsCounted(p.text, pattern, 0, start);
    CountFacts(p.text, pattern);
  }

  lemma CountFacts(text: string, pattern: string)
    requires pattern != ""
    ensures exists starts :: Apart(text, pattern, 0, starts) && |starts| == Count(text, pattern, 0)
    ensures forall starts :: Apart(text, pattern, 0, starts) ==> |starts| <= Count(text, pattern, 0)
  {
    var starts := CountIsReached(text, pattern, 0);
    forall others | Apart(text, pattern, 0, others) ensures |others| <= Count(text, pattern, 0) {
      CountIsTheMost(text, pattern, 0, others);
    }
  }

  lemma NothingToFind(alphabet: Alphabet, value: string, query: string, options: Options3)
    requires Projected(alphabet, query, options).text == "" || Projected(alphabet, value, options).offsets == []
    ensures !Matches(alphabet, value, query, options)
  {
  }

  lemma FoundOccurs(pattern: string, text: string, start: nat)
    requires OccursAt(pattern, text, start)
    ensures Occurs(pattern, text)
  {
  }
}
