/** The database key the ingestion tool gives a record: the record's line
    id printed with `%08d` (zero-padded to at least eight decimal digits),
    an underscore, and the image path, cut to the 255 characters that fit
    the 256-byte key buffer together with its terminating NUL. Characters
    stand for the bytes of the C string. */
module RecordKey {

  /** 10 to the power `w`. */
  function Pow10(w: nat): (r: nat)
    ensures r >= 1
  {
    if w == 0 then 1 else 10 * Pow10(w - 1)
  }

  const KeyWidth := 8
  /** One more than the largest line id whose key keeps the 8-digit width. */
  const KeyIdLimit := 100000000
  /** Size of the key buffer; the longest key is one byte shorter. */
  const MaxKeyLength := 256

  predicate IsDigit(c: char) { '0' <= c <= '9' }

  predicate AllDigits(s: string) { forall i | 0 <= i < |s| :: IsDigit(s[i]) }

  function DigitChar(d: nat): (c: char)
    requires d < 10
    ensures IsDigit(c) && c as int - 48 == d
  {
    (48 + d) as char
  }

  /** The last `w` decimal digits of `n`, most significant first, with
      leading zeros. */
  function Digits(n: nat, w: nat): (s: string)
    ensures |s| == w && AllDigits(s)
  {
    if w == 0 then [] else Digits(n / 10, w - 1) + [DigitChar(n % 10)]
  }

  /** The number a string of decimal digits denotes. */
  function DigitValue(s: string): nat
    requires AllDigits(s)
  {
    if |s| == 0 then 0 else DigitValue(s[..|s| - 1]) * 10 + (s[|s| - 1] as int - 48)
  }

  /** How many decimal digits `n` has without padding (0 has one). */
  function DigitCount(n: nat): (r: nat)
    ensures r >= 1 && n < Pow10(r)
  {
    if n < 10 then 1 else 1 + DigitCount(n / 10)
  }

  /** `printf("%08d", n)` for a non-negative `n`: at least eight digits,
      zero-padded on the left. */
  function Format08(n: nat): string {
    Digits(n, if DigitCount(n) < KeyWidth then KeyWidth else DigitCount(n))
  }

  /** The first `MaxKeyLength - 1` characters of `s`, as `snprintf` leaves
      them in a buffer of `MaxKeyLength` bytes. */
  function Truncate(s: string): (r: string)
    ensures |r| <= MaxKeyLength - 1 && |r| <= |s|
    ensures r == s[..|r|]
    ensures |s| <= MaxKeyLength - 1 ==> r == s
    ensures |s| > MaxKeyLength - 1 ==> |r| == MaxKeyLength - 1
  {
    if |s| <= MaxKeyLength - 1 then s else s[..MaxKeyLength - 1]
  }

  /** The key `"%08d_%s"` of record `lineId` with image path `path`. */
  function Key(lineId: nat, path: string): string {
    Truncate(Format08(lineId) + "_" + path)
  }

  /** `a` sorts strictly before `b` at a position where they differ (the
      byte-wise order of the database's keys, for keys neither of which is
      a prefix of the other). */
  predicate LexLess(a: string, b: string) {
    exists i | 0 <= i < |a| && i < |b| :: a[..i] == b[..i] && a[i] < b[i]
  }

  /** The line id a key of at least eight leading digits was formed from. */
  function KeyLineId(key: string): nat
    requires |key| >= KeyWidth && AllDigits(key[..KeyWidth])
  {
    DigitValue(key[..KeyWidth])
  }

  /** A key whose first eight characters are the padded digits of the line
      id they denote. */
  predicate WellFormedKey(key: string) {
    |key| >= KeyWidth && AllDigits(key[..KeyWidth]) && KeyLineId(key) < KeyIdLimit
    && key[..KeyWidth] == Digits(KeyLineId(key), KeyWidth)
  }

  lemma DigitValueSnoc(s: string, c: char)
    requires AllDigits(s) && IsDigit(c)
    ensures AllDigits(s + [c]) && DigitValue(s + [c]) == DigitValue(s) * 10 + (c as int - 48)
  {
    assert (s + [c])[..|s|] == s;
  }

  /** Decoding the digits of `n` gives `n` back when `n` fits the width. */
  lemma {:induction false} DigitsRoundTrip(n: nat, w: nat)
    requires n < Pow10(w)
    ensures DigitValue(Digits(n, w)) == n
  {
    if w > 0 {
      DigitsRoundTrip(n / 10, w - 1);
      DigitValueSnoc(Digits(n / 10, w - 1), DigitChar(n % 10));
    }
  }

  /** `%08d` loses no digit: the printed text denotes `n` itself. */
  lemma Format08RoundTrip(n: nat)
    ensures AllDigits(Format08(n)) && DigitValue(Format08(n)) == n
  {
    var w := if DigitCount(n) < KeyWidth then KeyWidth else DigitCount(n);
    Pow10Monotone(DigitCount(n), w);
    DigitsRoundTrip(n, w);
  }

  lemma {:induction false} Pow10Monotone(v: nat, w: nat)
    requires v <= w
    ensures Pow10(v) <= Pow10(w)
  {
    if v < w {
      Pow10Monotone(v, w - 1);
    }
  }

  /** A number below `10^w` needs at most `w` digits (and 0 needs one). */
  lemma {:induction false} DigitCountBound(n: nat, w: nat)
    requires w >= 1 && n < Pow10(w)
    ensures DigitCount(n) <= w
  {
    if n >= 10 {
      assert n / 10 < Pow10(w - 1) by { assert Pow10(w) == 10 * Pow10(w - 1); }
      DigitCountBound(n / 10, w - 1);
    }
  }

  /** Below `10^8`, `%08d` is exactly the eight padded digits. */
  lemma Format08Padded(n: nat)
    requires n < KeyIdLimit
    ensures Format08(n) == Digits(n, KeyWidth)
  {
    assert Pow10(KeyWidth) == KeyIdLimit;
    DigitCountBound(n, KeyWidth);
  }

  /** A key of a line id below `10^8` starts with its eight padded digits,
      which decode to the line id, followed by the underscore. */
  lemma KeyOfLineId(n: nat, path: string)
    requires n < KeyIdLimit
    ensures WellFormedKey(Key(n, path)) && KeyLineId(Key(n, path)) == n
    ensures Key(n, path)[KeyWidth] == '_'
  {
    Format08Padded(n);
    var s := Format08(n) + "_" + path;
    assert s[..KeyWidth] == Digits(n, KeyWidth);
    assert Key(n, path)[..KeyWidth] == s[..KeyWidth];
    assert Pow10(KeyWidth) == KeyIdLimit;
    DigitsRoundTrip(n, KeyWidth);
  }

  /** Padded digits of a smaller number sort first. */
  lemma {:induction false} DigitsOrdered(m: nat, n: nat, w: nat)
    requires m < n < Pow10(w)
    ensures LexLess(Digits(m, w), Digits(n, w))
  {
    var a, b := Digits(m, w), Digits(n, w);
    assert w > 0;
    var pa, pb := Digits(m / 10, w - 1), Digits(n / 10, w - 1);
    assert a == pa + [DigitChar(m % 10)] && b == pb + [DigitChar(n % 10)];
    if m / 10 == n / 10 {
      assert a[..w - 1] == pa == pb == b[..w - 1];
      assert a[w - 1] < b[w - 1];
    } else {
      assert m / 10 < n / 10 < Pow10(w - 1);
      DigitsOrdered(m / 10, n / 10, w - 1);
      var i :| 0 <= i < |pa| && i < |pb| && pa[..i] == pb[..i] && pa[i] < pb[i];
      assert a[..i] == pa[..i] && b[..i] == pb[..i];
      assert a[i] == pa[i] && b[i] == pb[i];
    }
  }

  /** Two strings that sort apart at a position inside common prefixes of
      `a'` and `b'` sort the same way. */
  lemma LexLessOfPrefixes(a: string, b: string, a': string, b': string)
    requires |a| <= |a'| && |b| <= |b'|
    requires LexLess(a, b) && a == a'[..|a|] && b == b'[..|b|]
    ensures LexLess(a', b')
  {
    var i :| 0 <= i < |a| && i < |b| && a[..i] == b[..i] && a[i] < b[i];
    assert a'[..i] == a[..i] && b'[..i] == b[..i];
    assert a'[i] == a[i] && b'[i] == b[i];
  }

  /** Well-formed keys sort by the line ids they were formed from. */
  lemma WellFormedKeysOrdered(a: string, b: string)
    requires WellFormedKey(a) && WellFormedKey(b) && KeyLineId(a) < KeyLineId(b)
    ensures LexLess(a, b)
  {
    assert Pow10(KeyWidth) == KeyIdLimit;
    DigitsOrdered(KeyLineId(a), KeyLineId(b), KeyWidth);
    LexLessOfPrefixes(a[..KeyWidth], b[..KeyWidth], a, b);
  }

  /** Keys of records numbered `m < n < 10^8` sort in numbering order,
      whatever the image paths, and so are distinct. */
  lemma KeysOrdered(m: nat, n: nat, p: string, q: string)
    requires m < n < KeyIdLimit
    ensures LexLess(Key(m, p), Key(n, q)) && Key(m, p) != Key(n, q)
  {
    KeyOfLineId(m, p);
    KeyOfLineId(n, q);
    WellFormedKeysOrdered(Key(m, p), Key(n, q));
  }
}
