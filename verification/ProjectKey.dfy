/** Project directory names: domains/sessions/project_key.go. */
module ProjectKey {

  /** A Unicode code point, as ranging over a Go string yields them: never a surrogate. */
  type Rune = r: int | 0 <= r < 0xD800 || 0xE000 <= r < 0x110000

  const MAX_LENGTH := 200

  // The hash: h = h<<5 - h + u in 32-bit arithmetic that wraps.

  const TWO32 := 0x1_0000_0000

  /** An int as the signed 32-bit value it wraps to. */
  function Wrap(n: int): (r: int)
    ensures -0x8000_0000 <= r < 0x8000_0000 && (r - n) % TWO32 == 0
  {
    var m := n % TWO32;
    if m < 0x8000_0000 then m else m - TWO32
  }

  /** utf16.Encode of one rune. */
  function Units(r: Rune): seq<nat> {
    if r < 0x10000 then [r] else [0xD800 + (r - 0x10000) / 0x400, 0xDC00 + (r - 0x10000) % 0x400]
  }

  function Utf16(s: seq<Rune>): seq<nat> {
    if s == [] then [] else Utf16(s[..|s| - 1]) + Units(s[|s| - 1])
  }

  /** The 31-polynomial of the units, unbounded. */
  function Polynomial(us: seq<nat>): nat {
    if us == [] then 0 else 31 * Polynomial(us[..|us| - 1]) + us[|us| - 1]
  }

  /** One step of the loop, each operation wrapped: the shift, the subtraction and the addition. */
  function HashStep(h: int, u: nat): int {
    Wrap(Wrap(Wrap(h * 32) - h) + u)
  }

  lemma WrapCongruent(a: int, b: int)
    requires (a - b) % TWO32 == 0
    ensures Wrap(a) == Wrap(b)
  {
  }

  lemma {:induction false} Multiple(n: int, k: int)
    requires n % TWO32 == 0
    ensures (k * n) % TWO32 == 0
  {
    var q := n / TWO32;
    assert k * n == TWO32 * (k * q);
    MultipleOf(k * q);
  }

  lemma MultipleOf(q: int)
    ensures (TWO32 * q) % TWO32 == 0
  {
  }

  /** Wrapping every operation is wrapping once: a step multiplies by 31 and adds. */
  lemma {:induction false} HashStepIs(p: int, u: nat)
    ensures HashStep(Wrap(p), u) == Wrap(31 * p + u)
  {
    var h := Wrap(p);
    Multiple(h - p, 31);
    WrapCongruent(Wrap(h * 32) - h, h * 32 - h);
    WrapCongruent(Wrap(Wrap(h * 32) - h) + u, h * 32 - h + u);
    WrapCongruent(31 * h + u, 31 * p + u);
  }

  // Base 36, as strconv.FormatInt writes it.

  predicate NameChar(c: char) {
    'a' <= c <= 'z' || 'A' <= c <= 'Z' || '0' <= c <= '9' || c == '-'
  }

  predicate IsName(s: string) {
    forall i :: 0 <= i < |s| ==> NameChar(s[i])
  }

  function DigitValue(c: char): int {
    if '0' <= c <= '9' then c as int - '0' as int else if 'a' <= c <= 'z' then c as int - 'a' as int + 10 else 0
  }

  function Digit(d: nat): (c: char)
    requires d < 36
    ensures DigitValue(c) == d && NameChar(c)
  {
    if d < 10 then ('0' as int + d) as char else ('a' as int + d - 10) as char
  }

  function Base36(n: nat): string {
    (if n < 36 then "" else Base36(n / 36)) + [Digit(n % 36)]
  }

  function ParseBase36(s: string): int {
    if s == "" then 0 else 36 * ParseBase36(s[..|s| - 1]) + DigitValue(s[|s| - 1])
  }

  function Pow36(k: nat): nat {
    if k == 0 then 1 else 36 * Pow36(k - 1)
  }

  /** It parses back, and has at most k digits for numbers below 36 to the k. */
  lemma {:induction false} Base36Parses(n: nat, k: nat)
    requires k > 0 && n < Pow36(k)
    ensures ParseBase36(Base36(n)) == n && IsName(Base36(n)) && 1 <= |Base36(n)| <= k
  {
    if n >= 36 {
      assert Pow36(1) == 36 * Pow36(0) == 36;
      Base36Parses(n / 36, k - 1);
    }
    AddDigit(if n < 36 then "" else Base36(n / 36), Digit(n % 36));
  }

  lemma AddDigit(front: string, c: char)
    requires IsName(front) && NameChar(c)
    ensures ParseBase36(front + [c]) == 36 * ParseBase36(front) + DigitValue(c) && IsName(front + [c])
  {
    assert (front + [c])[..|front|] == front;
  }

  function Magnitude(h: int): nat {
    if h < 0 then -h else h
  }

  /** The hash as the signed 32-bit polynomial it stands for. */
  function Hash(path: seq<Rune>): int {
    Wrap(Polynomial(Utf16(path)))
  }

  function HashText(path: seq<Rune>): string {
    Base36(Magnitude(Hash(path)))
  }

  /** The hash is at most six digits and parses back: its magnitude never overflows. */
  lemma HashParses(path: seq<Rune>)
    ensures var text := HashText(path);
      1 <= |text| <= 6 && IsName(text) && ParseBase36(text) == Magnitude(Hash(path)) <= 0x8000_0000
  {
    assert Pow36(2) == 1296 && Pow36(4) == 1679616 && Pow36(6) == 2176782336;
    Base36Parses(Magnitude(Hash(path)), 6);
  }

  method EncodeUtf16(s: seq<Rune>) returns (us: seq<nat>)
    ensures us == Utf16(s)
  {
    us := [];
    for i := 0 to |s|
      invariant us == Utf16(s[..i])
    {
      assert s[..i + 1][..i] == s[..i];
      us := us + Units(s[i]);
    }
    assert s[..|s|] == s;
  }

  method SimpleHash(s: seq<Rune>) returns (r: string)
    ensures r == HashText(s)
  {
    var us := EncodeUtf16(s);
    var h := 0;
    for i := 0 to |us|
      invariant h == Wrap(Polynomial(us[..i]))
    {
      assert us[..i + 1][..i] == us[..i];
      HashStepIs(Polynomial(us[..i]), us[i]);
      h := HashStep(h, us[i]);
    }
    assert us[..|us|] == us;
    var n := h;
    if n < 0 {
      n := -n;
    }
    r := Base36(n);
  }

  // The name.

  predicate AsciiAlphanumeric(c: char) {
    'a' <= c <= 'z' || 'A' <= c <= 'Z' || '0' <= c <= '9'
  }

  predicate Alphanumeric(r: Rune) {
    'a' as int <= r <= 'z' as int || 'A' as int <= r <= 'Z' as int || '0' as int <= r <= '9' as int
  }

  function CleanRune(r: Rune): char {
    if Alphanumeric(r) then r as char else '-'
  }

  function Clean(path: seq<Rune>): (s: string)
    ensures |s| == |path| && forall i :: 0 <= i < |path| ==> s[i] == CleanRune(path[i])
  {
    seq(|path|, i requires 0 <= i < |path| => CleanRune(path[i]))
  }

  function LongName(s: string, hash: string): string
    requires |s| > MAX_LENGTH
  {
    s[..MAX_LENGTH] + "-" + hash
  }

  function Sanitized(path: seq<Rune>): string {
    if |path| <= MAX_LENGTH then Clean(path)
    else LongName(Clean(path), HashText(path))
  }

  method SanitizePath(path: seq<Rune>) returns (s: string)
    ensures s == Sanitized(path)
  {
    var b := "";
    for i := 0 to |path|
      invariant |b| == i && forall k :: 0 <= k < i ==> b[k] == CleanRune(path[k])
    {
      b := b + [CleanRune(path[i])];
    }
    assert b == Clean(path);
    if |b| <= MAX_LENGTH {
      return b;
    }
    var hash := SimpleHash(path);
    s := b[..MAX_LENGTH] + "-" + hash;
  }

  function Runes(s: string): (rs: seq<Rune>)
    ensures |rs| == |s| && forall i :: 0 <= i < |s| ==> rs[i] == s[i] as int
  {
    seq(|s|, i requires 0 <= i < |s| => s[i] as int)
  }

  /** Every path's name is at most 207 letters, digits and dashes, and up to 200 a character a rune. */
  lemma NameIsBounded(path: seq<Rune>)
    ensures IsName(Sanitized(path)) && |Sanitized(path)| <= 207
    ensures |path| <= MAX_LENGTH ==> |Sanitized(path)| == |path|
    ensures |path| > MAX_LENGTH ==> |Sanitized(path)| > MAX_LENGTH + 1 && Sanitized(path)[MAX_LENGTH] == '-'
  {
    HashParses(path);
    CleanIsName(path);
    if |path| > MAX_LENGTH {
      LongNameIs(Clean(path), HashText(path));
    }
  }

  /** A letter or a digit is kept, and any other character, a separator or one beyond ASCII, becomes a dash. */
  lemma CleanIs(path: seq<Rune>, i: nat)
    requires i < |path| && i < MAX_LENGTH
    ensures var c := Sanitized(path)[i];
      if exists a :: AsciiAlphanumeric(a) && a as int == path[i] then c as int == path[i] else c == '-'
  {
    HashParses(path);
    assert Sanitized(path)[i] == Clean(path)[i] == CleanRune(path[i]);
    if Alphanumeric(path[i]) {
      assert AsciiAlphanumeric(path[i] as char);
    }
  }

  lemma CleanIsName(path: seq<Rune>)
    ensures IsName(Clean(path))
  {
    forall i | 0 <= i < |path| ensures NameChar(Clean(path)[i]) {
      assert Clean(path)[i] == CleanRune(path[i]);
    }
  }

  lemma LongNameIs(s: string, hash: string)
    requires |s| > MAX_LENGTH
    ensures var n := LongName(s, hash);
      && |n| == MAX_LENGTH + 1 + |hash| && n[..MAX_LENGTH] == s[..MAX_LENGTH] && n[MAX_LENGTH] == '-'
         && n[MAX_LENGTH + 1..] == hash
      && (IsName(s) && IsName(hash) ==> IsName(n))
  {
  }

  /** A name of 200 or fewer is its own, so naming twice is naming once on short paths. */
  lemma NamesAreFixed(name: string)
    requires IsName(name) && |name| <= MAX_LENGTH
    ensures Sanitized(Runes(name)) == name
  {
    forall i | 0 <= i < |name| ensures Clean(Runes(name))[i] == name[i] {
      assert NameChar(name[i]);
    }
  }

  /** Long paths that start alike keep apart exactly when their hashes differ in magnitude. */
  lemma {:induction false} LongNamesAgreeIff(p: seq<Rune>, q: seq<Rune>)
    requires |p| > MAX_LENGTH && |q| > MAX_LENGTH
    ensures Sanitized(p) == Sanitized(q)
      <==> Clean(p)[..MAX_LENGTH] == Clean(q)[..MAX_LENGTH] && Magnitude(Hash(p)) == Magnitude(Hash(q))
  {
    HashParses(p);
    HashParses(q);
    LongNameIs(Clean(p), HashText(p));
    LongNameIs(Clean(q), HashText(q));
  }
}
