/**
 The precedence key that the version policy computes from a version text, and
 the order of section 11 of Semantic Versioning 2.0.0.
*/
module VersionPolicy {
  import opened Prelude

  // ---------------------------------------------------------------- versions

  predicate Digit(c: char) { '0' <= c <= '9' }

  predicate Letter(c: char) { 'a' <= c <= 'z' || 'A' <= c <= 'Z' || c == '-' }

  predicate Digits(s: string) { s != "" && forall i :: 0 <= i < |s| ==> Digit(s[i]) }

  /** Digits without a leading zero. */
  predicate Numeral(s: string) { Digits(s) && (s[0] == '0' ==> |s| == 1) }

  /** A pre-release identifier: a numeral, or anything with a letter or hyphen. */
  predicate Identifier(s: string) {
    s != "" && (forall i :: 0 <= i < |s| ==> Digit(s[i]) || Letter(s[i])) && (Digits(s) ==> Numeral(s))
  }

  predicate BuildIdentifier(s: string) {
    s != "" && forall i :: 0 <= i < |s| ==> Digit(s[i]) || Letter(s[i])
  }

  datatype Version = Version(
    major: string, minor: string, patch: string, prerelease: Option<seq<string>>, build: Option<seq<string>>)
  {
    predicate WellFormed() {
      && Numeral(major) && Numeral(minor) && Numeral(patch)
      && (prerelease.Some? ==>
            prerelease.value != [] && forall i :: 0 <= i < |prerelease.value| ==> Identifier(prerelease.value[i]))
      && (build.Some? ==> build.value != [] && forall i :: 0 <= i < |build.value| ==> BuildIdentifier(build.value[i]))
    }
  }

  function Join(parts: seq<string>): string {
    if parts == [] then ""
    else if |parts| == 1 then parts[0]
    else parts[0] + "." + Join(parts[1..])
  }

  function Core(v: Version): string { v.major + "." + v.minor + "." + v.patch }

  /** The texts that the version pattern accepts. */
  function Text(v: Version): string {
    Core(v) + (if v.prerelease.Some? then "-" + Join(v.prerelease.value) else "")
    + (if v.build.Some? then "+" + Join(v.build.value) else "")
  }

  // ---------------------------------------------------------------- string operations

  predicate Lacks(s: string, c: char) { forall i :: 0 <= i < |s| ==> s[i] != c }

  /** Before the first `c`, whether there is one, and what follows it. */
  function Partition(s: string, c: char): (string, bool, string) {
    if s == "" then ("", false, "")
    else if s[0] == c then ("", true, s[1..])
    else
      var (head, found, tail) := Partition(s[1..], c);
      ([s[0]] + head, found, tail)
  }

  function Split(s: string, c: char): (r: seq<string>)
    decreases |s|
    ensures r != []
  {
    if s == "" then [""]
    else if s[0] == c then [""] + Split(s[1..], c)
    else
      var r := Split(s[1..], c);
      [[s[0]] + r[0]] + r[1..]
  }

  lemma {:induction false} PartitionAt(head: string, c: char, tail: string)
    requires Lacks(head, c)
    ensures Partition(head + [c] + tail, c) == (head, true, tail)
  {
    var s := head + [c] + tail;
    if head == "" {
      assert s[1..] == tail;
    } else {
      assert s[0] == head[0] && s[1..] == head[1..] + [c] + tail;
      PartitionAt(head[1..], c, tail);
      assert [head[0]] + head[1..] == head;
    }
  }

  lemma {:induction false} PartitionNone(s: string, c: char)
    requires Lacks(s, c)
    ensures Partition(s, c) == (s, false, "")
  {
    if s != "" {
      PartitionNone(s[1..], c);
      assert [s[0]] + s[1..] == s;
    }
  }

  lemma {:induction false} SplitOne(s: string, c: char)
    requires Lacks(s, c)
    ensures Split(s, c) == [s]
  {
    if s != "" {
      SplitOne(s[1..], c);
      assert [s[0]] + s[1..] == s;
    }
  }

  lemma {:induction false} SplitAt(head: string, c: char, tail: string)
    requires Lacks(head, c)
    ensures Split(head + [c] + tail, c) == [head] + Split(tail, c)
  {
    var s := head + [c] + tail;
    if head == "" {
      assert s[1..] == tail;
    } else {
      assert s[0] == head[0] && s[1..] == head[1..] + [c] + tail;
      SplitAt(head[1..], c, tail);
      var r := Split(s[1..], c);
      assert r[0] == head[1..] && r[1..] == Split(tail, c);
      assert [head[0]] + head[1..] == head;
    }
  }

  lemma {:induction false} SplitJoin(parts: seq<string>)
    requires parts != [] && forall i :: 0 <= i < |parts| ==> Lacks(parts[i], '.')
    ensures Split(Join(parts), '.') == parts
  {
    if |parts| == 1 {
      SplitOne(parts[0], '.');
    } else {
      SplitJoin(parts[1..]);
      SplitAt(parts[0], '.', Join(parts[1..]));
      assert parts[0] + "." + Join(parts[1..]) == parts[0] + ['.'] + Join(parts[1..]);
    }
  }

  lemma {:induction false} JoinLacks(parts: seq<string>, c: char)
    requires c != '.' && forall i :: 0 <= i < |parts| ==> Lacks(parts[i], c)
    ensures Lacks(Join(parts), c)
  {
    if |parts| > 1 { JoinLacks(parts[1..], c); }
  }

  // ---------------------------------------------------------------- the key

  function DigitValue(c: char): nat
    requires Digit(c)
  {
    c as int - '0' as int
  }

  function Value(s: string): nat
    requires forall i :: 0 <= i < |s| ==> Digit(s[i])
  {
    if s == "" then 0 else 10 * Value(s[..|s| - 1]) + DigitValue(s[|s| - 1])
  }

  datatype Field = Number(n: nat) | Word(s: string)

  datatype Key = Key(core: seq<nat>, release: bool, fields: seq<Field>)

  function FieldOf(part: string): Field { if Digits(part) then Number(Value(part)) else Word(part) }

  function FieldsOf(parts: seq<string>): (r: seq<Field>)
    ensures |r| == |parts|
  {
    if parts == [] then [] else FieldsOf(parts[..|parts| - 1]) + [FieldOf(parts[|parts| - 1])]
  }

  function NumbersOf(parts: seq<string>): seq<nat>
    requires forall i :: 0 <= i < |parts| ==> Digits(parts[i])
  {
    if parts == [] then []
    else
      assert Digits(parts[|parts| - 1]);
      NumbersOf(parts[..|parts| - 1]) + [Value(parts[|parts| - 1])]
  }

  /** What the policy computes; None where it would raise on a malformed core. */
  function Precedence(text: string): Option<Key> {
    var (release, separator, prerelease) := Partition(Partition(text, '+').0, '-');
    var core := Split(release, '.');
    if forall i :: 0 <= i < |core| ==> Digits(core[i]) then
      Some(Key(NumbersOf(core), !separator, if separator then FieldsOf(Split(prerelease, '.')) else []))
    else None
  }

  function KeyOf(v: Version): Key
    requires v.WellFormed()
  {
    Key([Value(v.major), Value(v.minor), Value(v.patch)], v.prerelease.None?,
        if v.prerelease.Some? then FieldsOf(v.prerelease.value) else [])
  }

  lemma CoreLacks(v: Version, c: char)
    requires v.WellFormed() && !Digit(c) && c != '.'
    ensures Lacks(Core(v), c)
  {
  }

  lemma IdentifiersLack(parts: seq<string>, c: char)
    requires forall i :: 0 <= i < |parts| ==> BuildIdentifier(parts[i])
    requires c == '.' || c == '+'
    ensures forall i :: 0 <= i < |parts| ==> Lacks(parts[i], c)
  {
  }

  lemma SplitCore(v: Version)
    requires v.WellFormed()
    ensures Split(Core(v), '.') == [v.major, v.minor, v.patch]
  {
    SplitJoin([v.major, v.minor, v.patch]);
    assert [v.major, v.minor, v.patch][1..] == [v.minor, v.patch] && [v.minor, v.patch][1..] == [v.patch];
    assert Join([v.minor, v.patch]) == v.minor + "." + v.patch;
    assert Join([v.major, v.minor, v.patch]) == v.major + "." + (v.minor + "." + v.patch);
    assert Core(v) == v.major + "." + (v.minor + "." + v.patch);
  }

  /** Everything up to the build metadata. */
  function Plain(v: Version): string {
    Core(v) + (if v.prerelease.Some? then "-" + Join(v.prerelease.value) else "")
  }

  lemma PlainHead(v: Version)
    requires v.WellFormed()
    ensures Partition(Text(v), '+').0 == Plain(v)
  {
    CoreLacks(v, '+');
    if v.prerelease.Some? {
      IdentifiersLack(v.prerelease.value, '+');
      JoinLacks(v.prerelease.value, '+');
    }
    assert Lacks(Plain(v), '+');
    if v.build.Some? {
      PartitionAt(Plain(v), '+', Join(v.build.value));
      assert Text(v) == Plain(v) + ['+'] + Join(v.build.value);
    } else {
      PartitionNone(Plain(v), '+');
      assert Text(v) == Plain(v);
    }
  }

  lemma NumbersOfThree(a: string, b: string, c: string)
    requires Digits(a) && Digits(b) && Digits(c)
    ensures NumbersOf([a, b, c]) == [Value(a), Value(b), Value(c)]
  {
    hide Value;
    assert [a, b, c][..2] == [a, b] && [a, b][..1] == [a] && [a][..0] == [];
    assert NumbersOf([a]) == [Value(a)];
    assert NumbersOf([a, b]) == [Value(a), Value(b)];
  }

  lemma PlainParts(v: Version)
    requires v.WellFormed()
    ensures var (core, separator, prerelease) := Partition(Plain(v), '-');
            && Split(core, '.') == [v.major, v.minor, v.patch] && separator == v.prerelease.Some?
            && (separator ==> Split(prerelease, '.') == v.prerelease.value)
  {
    CoreLacks(v, '-');
    SplitCore(v);
    if v.prerelease.Some? {
      PartitionAt(Core(v), '-', Join(v.prerelease.value));
      assert Plain(v) == Core(v) + ['-'] + Join(v.prerelease.value);
      IdentifiersLack(v.prerelease.value, '.');
      SplitJoin(v.prerelease.value);
    } else {
      PartitionNone(Core(v), '-');
      assert Plain(v) == Core(v);
    }
  }

  /** The key is computed from the parts of every accepted text. */
  lemma PrecedenceOfText(v: Version)
    requires v.WellFormed()
    ensures Precedence(Text(v)) == Some(KeyOf(v))
  {
    PlainHead(v);
    PlainParts(v);
    NumbersOfThree(v.major, v.minor, v.patch);
    hide Partition; hide Split; hide Plain; hide Text; hide FieldsOf; hide NumbersOf; hide Value; hide Identifier;
    hide BuildIdentifier;
    var core := [v.major, v.minor, v.patch];
    assert forall i :: 0 <= i < |core| ==> Digits(core[i]);
  }

  // ---------------------------------------------------------------- the order of keys

  predicate TextLess(a: string, b: string) {
    b != "" && (a == "" || a[0] < b[0] || (a[0] == b[0] && TextLess(a[1..], b[1..])))
  }

  predicate FieldLess(a: Field, b: Field) {
    match (a, b)
    case (Number(x), Number(y)) => x < y
    case (Number(_), Word(_)) => true
    case (Word(_), Number(_)) => false
    case (Word(s), Word(t)) => TextLess(s, t)
  }

  predicate FieldsLess(a: seq<Field>, b: seq<Field>) {
    b != [] && (a == [] || FieldLess(a[0], b[0]) || (a[0] == b[0] && FieldsLess(a[1..], b[1..])))
  }

  predicate NumbersLess(a: seq<nat>, b: seq<nat>) {
    b != [] && (a == [] || a[0] < b[0] || (a[0] == b[0] && NumbersLess(a[1..], b[1..])))
  }

  predicate KeyLess(a: Key, b: Key) {
    NumbersLess(a.core, b.core)
    || (a.core == b.core && ((!a.release && b.release) || (a.release == b.release && FieldsLess(a.fields, b.fields))))
  }

  // ---------------------------------------------------------------- section 11

  /** A numeral is smaller if it has fewer digits, or as many and a smaller
      digit at the first difference. */
  predicate NumeralLess(a: string, b: string) {
    |a| < |b| || (|a| == |b| && FirstDifference(a, b))
  }

  predicate FirstDifference(a: string, b: string) {
    exists i :: 0 <= i < |a| && i < |b| && Agree(a, b, i) && a[i] < b[i]
  }

  predicate Agree(a: string, b: string, n: nat)
    requires n <= |a| && n <= |b|
  {
    forall k :: 0 <= k < n ==> a[k] == b[k]
  }

  /** ASCII order: a smaller character at the first difference, or a proper prefix. */
  predicate AsciiLess(a: string, b: string) { FirstDifference(a, b) || (|a| < |b| && a == b[..|a|]) }

  /** 11.4.1 to 11.4.3 */
  predicate IdentifierLess(a: string, b: string) {
    if Digits(a) then (if Digits(b) then NumeralLess(a, b) else true)
    else (if Digits(b) then false else AsciiLess(a, b))
  }

  /** 11.4: the first difference decides; 11.4.4: more fields, if all before are equal. */
  predicate PrereleaseLess(p: seq<string>, q: seq<string>) {
    || (|p| < |q| && p == q[..|p|])
    || (exists i :: 0 <= i < |p| && i < |q| && p[..i] == q[..i] && IdentifierLess(p[i], q[i]))
  }

  /** 11.2 */
  predicate CoreLess(v: Version, w: Version) {
    NumeralLess(v.major, w.major)
    || (v.major == w.major && (NumeralLess(v.minor, w.minor) || (v.minor == w.minor && NumeralLess(v.patch, w.patch))))
  }

  predicate SameCore(v: Version, w: Version) { v.major == w.major && v.minor == w.minor && v.patch == w.patch }

  /** Section 11; build metadata plays no part (11.1). */
  predicate Precedes(v: Version, w: Version) {
    CoreLess(v, w)
    || (SameCore(v, w)
        && v.prerelease.Some? && (w.prerelease.None? || PrereleaseLess(v.prerelease.value, w.prerelease.value)))
  }

  // ---------------------------------------------------------------- numerals

  lemma {:induction false} ValueBelowPower(s: string)
    requires forall i :: 0 <= i < |s| ==> Digit(s[i])
    ensures Value(s) < Power(|s|)
  {
    if s != "" { ValueBelowPower(s[..|s| - 1]); }
  }

  function Power(n: nat): nat { if n == 0 then 1 else 10 * Power(n - 1) }

  lemma {:induction false} ValueOfNumeral(s: string)
    requires Digits(s) && s[0] != '0'
    ensures Value(s) >= Power(|s| - 1)
  {
    if |s| > 1 {
      ValueOfNumeral(s[..|s| - 1]);
    } else {
      assert s[..0] == "";
    }
  }

  lemma {:induction false} PowerMonotone(m: nat, n: nat)
    requires m <= n
    ensures Power(m) <= Power(n)
  {
    if m < n { PowerMonotone(m, n - 1); }
  }

  lemma LastDifference(a: string, b: string)
    requires |a| == |b| > 0
    ensures var n := |a| - 1;
            FirstDifference(a, b) <==> FirstDifference(a[..n], b[..n]) || (a[..n] == b[..n] && a[n] < b[n])
  {
    var n := |a| - 1;
    var x, y := a[..n], b[..n];
    if FirstDifference(a, b) {
      var i :| 0 <= i < |a| && i < |b| && Agree(a, b, i) && a[i] < b[i];
      if i < n {
        assert Agree(x, y, i) && x[i] < y[i];
      } else {
        assert forall k :: 0 <= k < n ==> x[k] == a[k] && y[k] == b[k];
        assert x == y;
      }
    }
    if FirstDifference(x, y) {
      var i :| 0 <= i < |x| && i < |y| && Agree(x, y, i) && x[i] < y[i];
      forall k | 0 <= k < i ensures a[k] == b[k] { assert x[k] == a[k] && y[k] == b[k]; }
      assert Agree(a, b, i) && a[i] < b[i];
    }
    if x == y && a[n] < b[n] {
      forall k | 0 <= k < n ensures a[k] == b[k] { assert x[k] == a[k] && y[k] == b[k]; }
      assert Agree(a, b, n);
    }
  }

  /** Same length: the values are ordered as the first difference is. */
  lemma {:induction false} ValueByDigits(a: string, b: string)
    requires |a| == |b| && (forall i :: 0 <= i < |a| ==> Digit(a[i]) && Digit(b[i]))
    ensures Value(a) < Value(b) <==> FirstDifference(a, b)
    ensures Value(a) == Value(b) <==> a == b
  {
    if a != "" {
      var n := |a| - 1;
      ValueByDigits(a[..n], b[..n]);
      LastDifference(a, b);
      EqualByLast(a, b);
      DigitOrder(a[n], b[n]);
      assert Value(a) == 10 * Value(a[..n]) + DigitValue(a[n]) && Value(b) == 10 * Value(b[..n]) + DigitValue(b[n]);
      hide FirstDifference; hide Value; hide DigitValue; hide Digit;
      TensAndUnits(Value(a[..n]), Value(b[..n]), DigitValue(a[n]), DigitValue(b[n]));
    }
  }

  lemma EqualByLast(a: string, b: string)
    requires |a| == |b| > 0
    ensures var n := |a| - 1; a == b <==> a[..n] == b[..n] && a[n] == b[n]
  {
    var n := |a| - 1;
    assert a == a[..n] + [a[n]] && b == b[..n] + [b[n]];
  }

  lemma DigitOrder(c: char, d: char)
    requires Digit(c) && Digit(d)
    ensures DigitValue(c) < 10 && DigitValue(d) < 10
    ensures (DigitValue(c) < DigitValue(d) <==> c < d) && (DigitValue(c) == DigitValue(d) <==> c == d)
  {
  }

  lemma TensAndUnits(x: nat, y: nat, d: nat, e: nat)
    requires d < 10 && e < 10
    ensures 10 * x + d < 10 * y + e <==> x < y || (x == y && d < e)
    ensures 10 * x + d == 10 * y + e <==> x == y && d == e
  {
  }

  /** Numerals without leading zeros are ordered by value as by their digits. */
  lemma NumeralOrder(a: string, b: string)
    requires Numeral(a) && Numeral(b)
    ensures Value(a) < Value(b) <==> NumeralLess(a, b)
    ensures Value(a) == Value(b) <==> a == b
  {
    if |a| == |b| {
      ValueByDigits(a, b);
    } else if |a| < |b| {
      ShorterIsSmaller(a, b);
    } else {
      ShorterIsSmaller(b, a);
    }
  }

  lemma ShorterIsSmaller(a: string, b: string)
    requires Numeral(a) && Numeral(b) && |a| < |b|
    ensures Value(a) < Value(b)
  {
    ValueBelowPower(a);
    ValueOfNumeral(b);
    PowerMonotone(|a|, |b| - 1);
  }

  // ---------------------------------------------------------------- words and field lists

  lemma HeadDifference(a: string, b: string)
    requires a != "" && b != ""
    ensures FirstDifference(a, b) <==> a[0] < b[0] || (a[0] == b[0] && FirstDifference(a[1..], b[1..]))
  {
    var x, y := a[1..], b[1..];
    if a[0] < b[0] { assert Agree(a, b, 0); }
    if FirstDifference(a, b) {
      var i :| 0 <= i < |a| && i < |b| && Agree(a, b, i) && a[i] < b[i];
      if i > 0 {
        forall k | 0 <= k < i - 1 ensures x[k] == y[k] { assert x[k] == a[k + 1] && y[k] == b[k + 1]; }
        assert Agree(x, y, i - 1) && x[i - 1] < y[i - 1];
      }
    }
    if a[0] == b[0] && FirstDifference(x, y) {
      var i :| 0 <= i < |x| && i < |y| && Agree(x, y, i) && x[i] < y[i];
      forall k | 0 <= k < i + 1 ensures a[k] == b[k] { assert k > 0 ==> x[k - 1] == a[k] && y[k - 1] == b[k]; }
      assert Agree(a, b, i + 1) && a[i + 1] < b[i + 1];
    }
  }

  lemma HeadPrefix<T>(a: seq<T>, b: seq<T>)
    requires a != [] && |a| <= |b|
    ensures a == b[..|a|] <==> a[0] == b[0] && a[1..] == b[1..][..|a| - 1]
  {
    assert a == [a[0]] + a[1..] && b[..|a|] == [b[0]] + b[1..][..|a| - 1];
    if a == b[..|a|] { assert a[1..] == b[..|a|][1..]; }
  }

  lemma {:induction false} TextOrder(a: string, b: string)
    ensures TextLess(a, b) <==> AsciiLess(a, b)
  {
    if a != "" && b != "" {
      TextOrder(a[1..], b[1..]);
      HeadDifference(a, b);
      if |a| <= |b| { HeadPrefix(a, b); }
      hide FirstDifference;
    }
  }

  lemma FieldOrder(p: string, q: string)
    requires Identifier(p) && Identifier(q)
    ensures FieldLess(FieldOf(p), FieldOf(q)) <==> IdentifierLess(p, q)
    ensures FieldOf(p) == FieldOf(q) <==> p == q
  {
    if Digits(p) && Digits(q) { NumeralOrder(p, q); }
    TextOrder(p, q);
  }

  predicate Identifiers(p: seq<string>) { forall i :: 0 <= i < |p| ==> Identifier(p[i]) }

  lemma {:induction false} FieldsAt(p: seq<string>)
    ensures |FieldsOf(p)| == |p| && forall i :: 0 <= i < |p| ==> FieldsOf(p)[i] == FieldOf(p[i])
  {
    if p != [] { FieldsAt(p[..|p| - 1]); }
  }

  /** The tuple comparison in terms of the first different field. */
  predicate FieldsFirst(a: seq<Field>, b: seq<Field>) {
    (|a| < |b| && a == b[..|a|]) || FieldsDiffer(a, b)
  }

  predicate FieldsDiffer(a: seq<Field>, b: seq<Field>) {
    exists i :: 0 <= i < |a| && i < |b| && a[..i] == b[..i] && FieldLess(a[i], b[i])
  }

  lemma HeadField(a: seq<Field>, b: seq<Field>)
    requires a != [] && b != [] && !FieldLess(a[0], a[0])
    ensures FieldsDiffer(a, b) <==> FieldLess(a[0], b[0]) || (a[0] == b[0] && FieldsDiffer(a[1..], b[1..]))
  {
    hide FieldLess;
    if FieldLess(a[0], b[0]) { assert a[..0] == b[..0]; }
    if FieldsDiffer(a, b) {
      var i :| 0 <= i < |a| && i < |b| && a[..i] == b[..i] && FieldLess(a[i], b[i]);
      if i > 0 { SameHead(a, b, i - 1); }
    }
    if a[0] == b[0] && FieldsDiffer(a[1..], b[1..]) {
      var i :| 0 <= i < |a| - 1 && i < |b| - 1 && a[1..][..i] == b[1..][..i] && FieldLess(a[1..][i], b[1..][i]);
      SameHead(a, b, i);
      assert FieldLess(a[i + 1], b[i + 1]);
    }
  }

  lemma SameHead(a: seq<Field>, b: seq<Field>, i: nat)
    requires i < |a| && i < |b|
    ensures a[..i + 1] == b[..i + 1] <==> a[0] == b[0] && a[1..][..i] == b[1..][..i]
  {
    assert a[..i + 1] == [a[0]] + a[1..][..i] && b[..i + 1] == [b[0]] + b[1..][..i];
  }

  lemma {:induction false} FieldsByFirst(a: seq<Field>, b: seq<Field>)
    requires forall f: Field :: !FieldLess(f, f)
    ensures FieldsLess(a, b) <==> FieldsFirst(a, b)
  {
    hide FieldLess;
    if a != [] && b != [] {
      FieldsByFirst(a[1..], b[1..]);
      HeadField(a, b);
      if |a| <= |b| { HeadPrefix(a, b); }
      hide FieldsDiffer;
    }
  }

  lemma FieldIrreflexive()
    ensures forall f: Field :: !FieldLess(f, f)
  {
    forall f: Field ensures !FieldLess(f, f) {
      if f.Word? { TextIrreflexive(f.s); }
    }
  }

  lemma {:induction false} TextIrreflexive(s: string)
    ensures !TextLess(s, s)
  {
    if s != "" { TextIrreflexive(s[1..]); }
  }

  lemma PrefixOfFields(p: seq<string>, q: seq<string>, i: nat)
    requires Identifiers(p) && Identifiers(q) && i <= |p| && i <= |q|
    ensures FieldsOf(p)[..i] == FieldsOf(q)[..i] <==> p[..i] == q[..i]
    ensures |FieldsOf(p)| == |p| && |FieldsOf(q)| == |q|
  {
    FieldsAt(p);
    FieldsAt(q);
    hide FieldsOf; hide FieldOf;
    var a, b := FieldsOf(p), FieldsOf(q);
    forall k | 0 <= k < i ensures a[k] == b[k] <==> p[k] == q[k] {
      FieldOrder(p[k], q[k]);
    }
    if a[..i] == b[..i] {
      forall k | 0 <= k < i ensures p[..i][k] == q[..i][k] { assert a[..i][k] == b[..i][k]; }
    }
    if p[..i] == q[..i] {
      forall k | 0 <= k < i ensures a[..i][k] == b[..i][k] { assert p[..i][k] == q[..i][k]; }
    }
  }

  lemma WholePrefix(p: seq<string>, q: seq<string>)
    requires Identifiers(p) && Identifiers(q) && |p| <= |q|
    ensures var a, b := FieldsOf(p), FieldsOf(q);
            && |a| == |p| && |b| == |q| && (a == b[..|p|] <==> p == q[..|p|]) && (a == b <==> p == q)
  {
    hide FieldsOf; hide Identifiers;
    PrefixOfFields(p, q, |p|);
    Whole(p);
    Whole(FieldsOf(p));
    if |p| == |q| {
      Whole(q);
      Whole(FieldsOf(q));
    }
  }

  lemma Whole<T>(s: seq<T>)
    ensures s[..|s|] == s
  {
  }

  lemma PrereleaseOrder(p: seq<string>, q: seq<string>)
    requires Identifiers(p) && Identifiers(q)
    ensures FieldsLess(FieldsOf(p), FieldsOf(q)) <==> PrereleaseLess(p, q)
    ensures FieldsOf(p) == FieldsOf(q) <==> p == q
  {
    FieldIrreflexive();
    var a, b := FieldsOf(p), FieldsOf(q);
    FieldsByFirst(a, b);
    FieldsAt(p);
    FieldsAt(q);
    hide FieldsOf; hide FieldOf; hide FieldsLess; hide FieldLess; hide IdentifierLess; hide Identifier;
    if |p| <= |q| { WholePrefix(p, q); }
    forall i | 0 <= i < |p| && i < |q|
      ensures (a[..i] == b[..i] <==> p[..i] == q[..i]) && (FieldLess(a[i], b[i]) <==> IdentifierLess(p[i], q[i]))
    {
      PrefixOfFields(p, q, i);
      FieldOrder(p[i], q[i]);
    }
  }

  // ---------------------------------------------------------------- the policy

  /** The key orders all accepted versions exactly as section 11 does, and is
      equal only for versions that differ in nothing but build metadata. */
  lemma KeysFollowSection11(v: Version, w: Version)
    requires v.WellFormed() && w.WellFormed()
    ensures KeyLess(KeyOf(v), KeyOf(w)) <==> Precedes(v, w)
    ensures KeyOf(v) == KeyOf(w) <==> Plain(v) == Plain(w)
    ensures KeyOf(v) == KeyOf(w) <==> SameCore(v, w) && v.prerelease == w.prerelease
  {
    NumeralOrder(v.major, w.major);
    NumeralOrder(v.minor, w.minor);
    NumeralOrder(v.patch, w.patch);
    CoreOrder(v, w);
    if v.prerelease.Some? && w.prerelease.Some? { PrereleaseOrder(v.prerelease.value, w.prerelease.value); }
    PlainEqual(v, w);
    hide FieldsOf; hide FieldsLess; hide NumbersLess; hide PrereleaseLess; hide NumeralLess; hide Plain;
    hide Numeral; hide Identifier; hide Value; hide CoreLess;
    if v.prerelease.Some? { FieldsAt(v.prerelease.value); }
    if w.prerelease.Some? { FieldsAt(w.prerelease.value); }
    assert KeyOf(v).core == KeyOf(w).core <==> SameCore(v, w) by {
      assert KeyOf(v).core[0] == Value(v.major) && KeyOf(v).core[1] == Value(v.minor);
      assert KeyOf(v).core[2] == Value(v.patch);
      assert KeyOf(w).core[0] == Value(w.major) && KeyOf(w).core[1] == Value(w.minor);
      assert KeyOf(w).core[2] == Value(w.patch);
    }
  }

  lemma CoreOrder(v: Version, w: Version)
    requires v.WellFormed() && w.WellFormed()
    ensures NumbersLess(KeyOf(v).core, KeyOf(w).core) <==> CoreLess(v, w)
  {
    NumeralOrder(v.major, w.major);
    NumeralOrder(v.minor, w.minor);
    NumeralOrder(v.patch, w.patch);
    hide Value; hide NumeralLess; hide Numeral; hide FieldsOf;
    var a, b := KeyOf(v).core, KeyOf(w).core;
    assert a[1..] == [Value(v.minor), Value(v.patch)] && b[1..] == [Value(w.minor), Value(w.patch)];
    assert a[1..][1..] == [Value(v.patch)] && b[1..][1..] == [Value(w.patch)];
    assert a[1..][1..][1..] == [] && b[1..][1..][1..] == [];
    assert NumbersLess(a[1..][1..], b[1..][1..]) <==> Value(v.patch) < Value(w.patch);
  }

  /** The text before the build metadata determines the parts. */
  lemma PlainEqual(v: Version, w: Version)
    requires v.WellFormed() && w.WellFormed()
    ensures Plain(v) == Plain(w) <==> SameCore(v, w) && v.prerelease == w.prerelease
  {
    if Plain(v) == Plain(w) {
      PlainParts(v);
      PlainParts(w);
    }
  }

  // ---------------------------------------------------------------- a strict weak order

  lemma {:induction false} TextTransitive(a: string, b: string, c: string)
    requires TextLess(a, b) && TextLess(b, c)
    ensures TextLess(a, c)
  {
    if a != "" && a[0] == b[0] && b[0] == c[0] { TextTransitive(a[1..], b[1..], c[1..]); }
  }

  lemma {:induction false} TextTotal(a: string, b: string)
    ensures a == b || TextLess(a, b) || TextLess(b, a)
  {
    if a != "" && b != "" && a[0] == b[0] {
      TextTotal(a[1..], b[1..]);
      assert a == [a[0]] + a[1..] && b == [b[0]] + b[1..];
    }
  }

  lemma FieldTransitive(a: Field, b: Field, c: Field)
    requires FieldLess(a, b) && FieldLess(b, c)
    ensures FieldLess(a, c)
  {
    if a.Word? && b.Word? && c.Word? { TextTransitive(a.s, b.s, c.s); }
  }

  lemma FieldTotal(a: Field, b: Field)
    ensures a == b || FieldLess(a, b) || FieldLess(b, a)
  {
    if a.Word? && b.Word? { TextTotal(a.s, b.s); }
  }

  lemma {:induction false} FieldsTransitive(a: seq<Field>, b: seq<Field>, c: seq<Field>)
    requires FieldsLess(a, b) && FieldsLess(b, c)
    ensures FieldsLess(a, c)
  {
    hide FieldLess;
    if a != [] {
      if FieldLess(a[0], b[0]) && FieldLess(b[0], c[0]) { FieldTransitive(a[0], b[0], c[0]); }
      if a[0] == b[0] && b[0] == c[0] && FieldsLess(a[1..], b[1..]) && FieldsLess(b[1..], c[1..]) {
        FieldsTransitive(a[1..], b[1..], c[1..]);
      }
    }
  }

  lemma {:induction false} FieldsTotal(a: seq<Field>, b: seq<Field>)
    ensures a == b || FieldsLess(a, b) || FieldsLess(b, a)
    ensures !FieldsLess(a, a)
  {
    FieldIrreflexive();
    hide FieldLess;
    if a != [] { FieldsTotal(a[1..], a[1..]); }
    if a != [] && b != [] {
      FieldTotal(a[0], b[0]);
      if a[0] == b[0] {
        FieldsTotal(a[1..], b[1..]);
        assert a == [a[0]] + a[1..] && b == [b[0]] + b[1..];
      }
    }
  }

  lemma {:induction false} NumbersTransitive(a: seq<nat>, b: seq<nat>, c: seq<nat>)
    requires NumbersLess(a, b) && NumbersLess(b, c)
    ensures NumbersLess(a, c)
  {
    if a != [] && a[0] == b[0] && b[0] == c[0] { NumbersTransitive(a[1..], b[1..], c[1..]); }
  }

  lemma {:induction false} NumbersTotal(a: seq<nat>, b: seq<nat>)
    ensures a == b || NumbersLess(a, b) || NumbersLess(b, a)
    ensures !NumbersLess(a, a)
  {
    if a != [] { NumbersTotal(a[1..], a[1..]); }
    if a != [] && b != [] && a[0] == b[0] {
      NumbersTotal(a[1..], b[1..]);
      assert a == [a[0]] + a[1..] && b == [b[0]] + b[1..];
    }
  }

  /** Keys are totally ordered. */
  lemma KeysAreOrdered(a: Key, b: Key, c: Key)
    ensures !KeyLess(a, a)
    ensures a == b || KeyLess(a, b) || KeyLess(b, a)
    ensures KeyLess(a, b) && KeyLess(b, c) ==> KeyLess(a, c)
  {
    hide NumbersLess; hide FieldsLess;
    NumbersTotal(a.core, b.core);
    FieldsTotal(a.fields, b.fields);
    if NumbersLess(a.core, b.core) && NumbersLess(b.core, c.core) { NumbersTransitive(a.core, b.core, c.core); }
    if FieldsLess(a.fields, b.fields) && FieldsLess(b.fields, c.fields) {
      FieldsTransitive(a.fields, b.fields, c.fields);
    }
  }

  /** The order of versions is a strict weak order whose ties are exactly the
      versions that differ only in build metadata. */
  lemma VersionsAreOrdered(u: Version, v: Version, w: Version)
    requires u.WellFormed() && v.WellFormed() && w.WellFormed()
    ensures !Precedes(v, v)
    ensures Plain(v) == Plain(w) || Precedes(v, w) || Precedes(w, v)
    ensures Precedes(v, w) ==> Plain(v) != Plain(w) && !Precedes(w, v)
    ensures Precedes(u, v) && Precedes(v, w) ==> Precedes(u, w)
  {
    hide Precedes; hide KeyLess; hide KeyOf; hide Plain;
    KeysFollowSection11(v, v);
    KeysFollowSection11(v, w);
    KeysFollowSection11(w, v);
    KeysFollowSection11(u, v);
    KeysFollowSection11(u, w);
    KeysAreOrdered(KeyOf(v), KeyOf(w), KeyOf(v));
    KeysAreOrdered(KeyOf(u), KeyOf(v), KeyOf(w));
  }

  /** `validate` for a change of production files. */
  predicate Accepted(before: string, after: string) {
    Precedence(before).Some? && Precedence(after).Some?
    && KeyLess(Precedence(before).value, Precedence(after).value)
  }

  /** Accepted changes move strictly upward, so no chain of them returns to an
      earlier version, whatever its build metadata. */
  lemma {:induction false} NoCycles(chain: seq<Version>)
    requires |chain| >= 2 && forall i :: 0 <= i < |chain| ==> chain[i].WellFormed()
    requires forall i :: 0 <= i < |chain| - 1 ==> Accepted(Text(chain[i]), Text(chain[i + 1]))
    ensures Precedes(chain[0], chain[|chain| - 1]) && Plain(chain[0]) != Plain(chain[|chain| - 1])
  {
    hide Precedes; hide KeyLess; hide KeyOf; hide Plain; hide Precedence; hide Text;
    var n := |chain| - 1;
    var v, w := chain[n - 1], chain[n];
    assert Accepted(Text(chain[n - 1]), Text(chain[n - 1 + 1]));
    PrecedenceOfText(v);
    PrecedenceOfText(w);
    KeysFollowSection11(v, w);
    VersionsAreOrdered(v, v, w);
    if n > 1 {
      NoCycles(chain[..n]);
      VersionsAreOrdered(chain[0], v, w);
      VersionsAreOrdered(v, chain[0], w);
    }
  }
}
