/**
 * The value-level meaning of the few PHP language features and built-ins that
 * the theme's decision logic depends on: boolean conversion of strings,
 * `isset` on array keys, `explode` on a one-character delimiter, and the
 * decimal rendering of an integer.
 */
module Php {

  datatype Option<T> = None | Some(value: T)

  /** A value stored in a PHP array handed to a filter. */
  datatype Value =
    | Null
    | Bool(b: bool)
    | Int(i: int)
    | Str(s: string)

  /** PHP converts a string to false exactly when it is "" or "0". */
  predicate Truthy(s: string) {
    s != "" && s != "0"
  }

  /** `isset($a[k])`: the key is present and its value is not null. */
  predicate IsSet(a: map<string, Value>, k: string) {
    k in a && a[k] != Null
  }

  /** `explode(sep, s)` for a one-character delimiter. */
  function Explode(sep: char, s: string): (parts: seq<string>)
    ensures |parts| >= 1
    ensures forall k :: 0 <= k < |parts| ==> sep !in parts[k]
    decreases |s|
  {
    if |s| == 0 then [""]
    else
      var rest := Explode(sep, s[1..]);
      if s[0] == sep then [""] + rest
      else [[s[0]] + rest[0]] + rest[1..]
  }

  /** `implode(sep, parts)`, the inverse of `explode`. */
  function Join(sep: char, parts: seq<string>): string
    requires |parts| >= 1
    decreases |parts|
  {
    if |parts| == 1 then parts[0] else parts[0] + [sep] + Join(sep, parts[1..])
  }

  /** Exploding a string that starts with a delimiter-free prefix `a`. */
  lemma {:induction false} ExplodePrefix(sep: char, a: string, t: string)
    requires sep !in a
    ensures Explode(sep, a + t) == [a + Explode(sep, t)[0]] + Explode(sep, t)[1..]
    decreases |a|
  {
    if |a| == 0 {
      assert a + t == t;
      assert a + Explode(sep, t)[0] == Explode(sep, t)[0];
      assert Explode(sep, t) == [Explode(sep, t)[0]] + Explode(sep, t)[1..];
    } else {
      ExplodePrefix(sep, a[1..], t);
      assert (a + t)[0] == a[0];
      assert (a + t)[1..] == a[1..] + t;
      assert [a[0]] + (a[1..] + Explode(sep, t)[0]) == a + Explode(sep, t)[0];
    }
  }

  /** Joining the pieces of `explode` gives back the original string. */
  lemma {:induction false} JoinExplode(sep: char, s: string)
    ensures Join(sep, Explode(sep, s)) == s
    decreases |s|
  {
    if |s| > 0 {
      JoinExplode(sep, s[1..]);
      var rest := Explode(sep, s[1..]);
      if s[0] == sep {
        assert ([""] + rest)[1..] == rest;
        assert s == [sep] + s[1..];
      } else {
        var parts := [[s[0]] + rest[0]] + rest[1..];
        if |rest| == 1 {
          assert s == [s[0]] + s[1..];
        } else {
          assert parts[1..] == rest[1..];
          assert Join(sep, rest) == rest[0] + [sep] + Join(sep, rest[1..]);
          assert s == [s[0]] + s[1..];
        }
      }
    }
  }

  /** Exploding a join of delimiter-free pieces gives back the pieces. */
  lemma {:induction false} ExplodeJoin(sep: char, parts: seq<string>)
    requires |parts| >= 1
    requires forall k :: 0 <= k < |parts| ==> sep !in parts[k]
    ensures Explode(sep, Join(sep, parts)) == parts
    decreases |parts|
  {
    if |parts| == 1 {
      ExplodePrefix(sep, parts[0], "");
      assert parts[0] + "" == parts[0];
    } else {
      var tail := Join(sep, parts[1..]);
      ExplodeJoin(sep, parts[1..]);
      assert ([sep] + tail)[1..] == tail;
      assert Explode(sep, [sep] + tail) == [""] + parts[1..];
      ExplodePrefix(sep, parts[0], [sep] + tail);
      assert parts[0] + [sep] + tail == parts[0] + ([sep] + tail);
      assert parts[0] + "" == parts[0];
      assert [parts[0]] + parts[1..] == parts;
    }
  }

  function DigitChar(d: nat): char
    requires d < 10
  {
    ('0' as int + d) as char
  }

  /** The decimal text PHP produces for a non-negative integer (`sprintf('%s', n)`). */
  function Decimal(n: nat): (s: string)
    ensures |s| >= 1
    ensures forall k :: 0 <= k < |s| ==> '0' <= s[k] <= '9'
    ensures n > 0 ==> s[0] != '0'
    decreases n
  {
    if n < 10 then [DigitChar(n)] else Decimal(n / 10) + [DigitChar(n % 10)]
  }

  /** The number a string of decimal digits denotes. */
  function DigitsValue(s: string): nat
    requires forall k :: 0 <= k < |s| ==> '0' <= s[k] <= '9'
    decreases |s|
  {
    if |s| == 0 then 0
    else DigitsValue(s[..|s| - 1]) * 10 + (s[|s| - 1] as int - '0' as int)
  }

  /** Reading back the decimal text of `n` gives `n`. */
  lemma {:induction false} DecimalValue(n: nat)
    ensures DigitsValue(Decimal(n)) == n
    decreases n
  {
    if n >= 10 {
      DecimalValue(n / 10);
      var s := Decimal(n);
      assert s[..|s| - 1] == Decimal(n / 10);
    }
  }
}
