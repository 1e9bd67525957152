/**
 * The JavaScript string operations the token handling relies on:
 * `s.split(" ")`, `s.startsWith(p)` and the decimal rendering of a count
 * inside a template literal.
 */
module JsString {

  /** The number of space characters in `s`. */
  function Spaces(s: string): nat
  {
    if s == [] then 0 else (if s[0] == ' ' then 1 else 0) + Spaces(s[1..])
  }

  /**
   * `s.split(" ")`: the pieces between single spaces, empty pieces included,
   * so there is always one field more than there are spaces.
   */
  function Split(s: string): (fields: seq<string>)
    ensures |fields| == Spaces(s) + 1
    ensures forall i :: 0 <= i < |fields| ==> ' ' !in fields[i]
  {
    if s == [] then [""]
    else
      var rest := Split(s[1..]);
      if s[0] == ' ' then [""] + rest
      else [[s[0]] + rest[0]] + rest[1..]
  }

  /** `fields.join(" ")`, the inverse of Split. */
  function Join(fields: seq<string>): string
    requires |fields| >= 1
  {
    if |fields| == 1 then fields[0] else fields[0] + " " + Join(fields[1..])
  }

  /** `s.startsWith(prefix)`. */
  predicate StartsWith(s: string, prefix: string)
  {
    prefix <= s
  }

  /** Joining the fields of a split gives back the string. */
  lemma {:induction false} SplitThenJoin(s: string)
    ensures Join(Split(s)) == s
  {
    if s != [] {
      var rest := Split(s[1..]);
      SplitThenJoin(s[1..]);
      if s[0] == ' ' {
        assert ([""] + rest)[1..] == rest;
        assert s == [' '] + s[1..];
      } else if |rest| == 1 {
        assert s == [s[0]] + s[1..];
      } else {
        var fields := [[s[0]] + rest[0]] + rest[1..];
        assert fields[1..] == rest[1..];
        assert Join(rest) == rest[0] + " " + Join(rest[1..]);
        assert s == [s[0]] + s[1..];
      }
    }
  }

  /** A string without spaces splits into itself alone. */
  lemma {:induction false} SplitSpaceFree(w: string)
    requires ' ' !in w
    ensures Split(w) == [w]
  {
    if w != [] {
      assert ' ' !in w[1..] by {
        forall i | 0 <= i < |w[1..]| ensures w[1..][i] != ' ' {
          assert w[1..][i] == w[i + 1];
        }
      }
      SplitSpaceFree(w[1..]);
      assert [w[0]] + w[1..] == w;
    }
  }

  /** A space-free word followed by a space is split off as the first field. */
  lemma {:induction false} SplitAfterWord(w: string, t: string)
    requires ' ' !in w
    ensures Split(w + " " + t) == [w] + Split(t)
  {
    if w == [] {
      assert w + " " + t == [' '] + t;
      assert (w + " " + t)[1..] == t;
    } else {
      assert ' ' !in w[1..] by {
        forall i | 0 <= i < |w[1..]| ensures w[1..][i] != ' ' {
          assert w[1..][i] == w[i + 1];
        }
      }
      SplitAfterWord(w[1..], t);
      assert (w + " " + t)[1..] == w[1..] + " " + t;
      assert [w[0]] + w[1..] == w;
    }
  }

  /** Splitting a join of space-free fields gives back the fields. */
  lemma {:induction false} JoinThenSplit(fields: seq<string>)
    requires |fields| >= 1
    requires forall i :: 0 <= i < |fields| ==> ' ' !in fields[i]
    ensures Split(Join(fields)) == fields
  {
    if |fields| == 1 {
      SplitSpaceFree(fields[0]);
    } else {
      JoinThenSplit(fields[1..]);
      SplitAfterWord(fields[0], Join(fields[1..]));
      assert [fields[0]] + fields[1..] == fields;
    }
  }

  function DigitChar(d: nat): (c: char)
    requires d < 10
    ensures '0' <= c <= '9'
  {
    "0123456789"[d]
  }

  /** The decimal rendering of a count inside a template literal. */
  function DecimalString(n: nat): (r: string)
    ensures |r| >= 1
    ensures forall i :: 0 <= i < |r| ==> '0' <= r[i] <= '9'
  {
    if n < 10 then [DigitChar(n)] else DecimalString(n / 10) + [DigitChar(n % 10)]
  }
}
