/**
 * The untyped nested data the inventory driver works on, and the string
 * helpers its matcher relies on (ASCII lowercasing, comma/newline
 * splitting, substring search).
 */
module Values {

  datatype Option<T> = None | Some(value: T)

  datatype Result<T> = Success(value: T) | Failure(error: string)

  /** Outcome of a call into the storage layer: it either goes through or raises. */
  datatype Outcome = Pass | Fail(message: string)

  /**
   * A value held in a record: a Python `str`, `int`, a `list` (which also
   * stands for a `set` or `tuple` wherever the driver treats them alike) or
   * a `dict`, kept as an association list in its iteration order.
   */
  datatype Value =
    | Str(s: string)
    | Int(n: int)
    | List(items: seq<Value>)
    | Dict(entries: seq<(string, Value)>)

  /** A stored row or a request payload: field name to value. */
  type Record = map<string, Value>

  /** Python truthiness of a value. */
  predicate Truthy(v: Value) {
    match v
    case Str(s) => s != []
    case Int(n) => n != 0
    case List(items) => items != []
    case Dict(entries) => entries != []
  }

  /** `r.get(key)` */
  function Get(r: Record, key: string): Option<Value> {
    if key in r then Some(r[key]) else None
  }

  // ---------------------------------------------------------------------
  // Lowercasing (`str.lower`, restricted to ASCII)

  function LowerChar(c: char): char {
    if 'A' <= c <= 'Z' then (c as int + 32) as char else c
  }

  function Lower(s: string): string {
    seq(|s|, i requires 0 <= i < |s| => LowerChar(s[i]))
  }

  lemma LowerIdempotent(s: string)
    ensures Lower(Lower(s)) == Lower(s)
  {
    assert forall i :: 0 <= i < |s| ==> LowerChar(LowerChar(s[i])) == LowerChar(s[i]);
  }

  // ---------------------------------------------------------------------
  // Splitting on ',' and '\n' (`re.split(',|\n', s)` with empty pieces dropped)

  predicate IsSep(c: char) {
    c == ',' || c == '\n'
  }

  predicate HasSep(s: string) {
    ',' in s || '\n' in s
  }

  /**
   * The non-empty pieces of `s` between separators, where `cur` is the
   * piece already read up to the start of `s`.
   */
  function SplitFrom(s: string, cur: string): (r: seq<string>)
    requires !HasSep(cur)
    ensures forall t :: t in r ==> t != [] && !HasSep(t)
    decreases |s|
  {
    var done := if cur == [] then [] else [cur];
    if s == [] then done
    else if IsSep(s[0]) then done + SplitFrom(s[1..], [])
    else
      assert !HasSep(cur + [s[0]]) by {
        forall c | c in cur + [s[0]] ensures !IsSep(c) {
          if c !in cur {
            assert c == s[0];
          }
        }
      }
      SplitFrom(s[1..], cur + [s[0]])
  }

  function Tokens(s: string): seq<string> {
    SplitFrom(s, [])
  }

  /** `s` with every separator removed: an independent description of what the tokens cover. */
  function RemoveSeps(s: string): string {
    if s == [] then []
    else (if IsSep(s[0]) then [] else [s[0]]) + RemoveSeps(s[1..])
  }

  function Concat(ts: seq<string>): string {
    if ts == [] then [] else ts[0] + Concat(ts[1..])
  }

  lemma {:induction false} ConcatCons(t: string, ts: seq<string>)
    ensures Concat([t] + ts) == t + Concat(ts)
  {
    assert ([t] + ts)[1..] == ts;
  }

  lemma {:induction false} SplitFromCovers(s: string, cur: string)
    requires !HasSep(cur)
    ensures Concat(SplitFrom(s, cur)) == cur + RemoveSeps(s)
    decreases |s|
  {
    if s == [] {
    } else if IsSep(s[0]) {
      SplitFromCovers(s[1..], []);
      if cur != [] {
        ConcatCons(cur, SplitFrom(s[1..], []));
      }
      assert [] + SplitFrom(s[1..], []) == SplitFrom(s[1..], []);
    } else {
      assert !HasSep(cur + [s[0]]) by {
        forall c | c in cur + [s[0]] ensures !IsSep(c) {
          if c !in cur {
            assert c == s[0];
          }
        }
      }
      SplitFromCovers(s[1..], cur + [s[0]]);
      assert cur + [s[0]] + RemoveSeps(s[1..]) == cur + ([s[0]] + RemoveSeps(s[1..]));
    }
  }

  /**
   * Splitting loses exactly the separators: the tokens, glued back
   * together, are the string without its commas and newlines; and every
   * token is non-empty and separator-free.
   */
  lemma TokensCover(s: string)
    ensures Concat(Tokens(s)) == RemoveSeps(s)
    ensures forall t :: t in Tokens(s) ==> t != [] && !HasSep(t)
  {
    SplitFromCovers(s, []);
  }

  lemma NoSepExtend(cur: string, c: char)
    requires !HasSep(cur) && !IsSep(c)
    ensures !HasSep(cur + [c])
  {
    forall x | x in cur + [c] ensures !IsSep(x) {
      if x !in cur {
        assert x == c;
      }
    }
  }

  lemma {:induction false} SplitFromWord(w: string, rest: string, cur: string)
    requires !HasSep(cur) && !HasSep(w)
    ensures !HasSep(cur + w)
    ensures SplitFrom(w + rest, cur) == SplitFrom(rest, cur + w)
    decreases |w|
  {
    if w == [] {
      assert w + rest == rest;
      assert cur + w == cur;
    } else {
      assert (w + rest)[0] == w[0];
      assert (w + rest)[1..] == w[1..] + rest;
      assert !HasSep(w[1..]) by {
        forall x | x in w[1..] ensures !IsSep(x) {
          assert x in w;
        }
      }
      NoSepExtend(cur, w[0]);
      SplitFromWord(w[1..], rest, cur + [w[0]]);
      assert cur + [w[0]] + w[1..] == cur + w;
    }
  }

  /** A separator-free word followed by a separator becomes the first token. */
  lemma TokensAtSep(w: string, sep: char, rest: string)
    requires w != [] && !HasSep(w) && IsSep(sep)
    ensures Tokens(w + [sep] + rest) == [w] + Tokens(rest)
  {
    SplitFromWord(w, [sep] + rest, []);
    assert w + [sep] + rest == w + ([sep] + rest);
    assert [] + w == w;
    assert ([sep] + rest)[1..] == rest;
  }

  /** A non-empty separator-free string is one token. */
  lemma TokensOfWord(w: string)
    requires w != [] && !HasSep(w)
    ensures Tokens(w) == [w]
  {
    SplitFromWord(w, [], []);
    assert w + [] == w;
    assert [] + w == w;
  }

  /** A leading separator yields no token: empty pieces are dropped. */
  lemma TokensSkipSep(sep: char, rest: string)
    requires IsSep(sep)
    ensures Tokens([sep] + rest) == Tokens(rest)
  {
    assert ([sep] + rest)[0] == sep;
    assert ([sep] + rest)[1..] == rest;
  }

  // ---------------------------------------------------------------------
  // Substring search (`needle in hay` on strings)

  predicate Contains(hay: string, needle: string)
    decreases |hay|
  {
    needle <= hay || (hay != [] && Contains(hay[1..], needle))
  }

  predicate OccursAt(hay: string, needle: string, k: int) {
    0 <= k && k + |needle| <= |hay| && hay[k..k + |needle|] == needle
  }

  lemma OccursAtStart(hay: string, needle: string)
    ensures OccursAt(hay, needle, 0) <==> needle <= hay
  {
    if needle <= hay {
      assert hay[0..|needle|] == needle;
    }
  }

  lemma OccursAtShift(hay: string, needle: string, k: nat)
    requires hay != []
    ensures OccursAt(hay, needle, k + 1) <==> OccursAt(hay[1..], needle, k)
  {
    if k + 1 + |needle| <= |hay| {
      assert hay[1..][k..k + |needle|] == hay[k + 1..k + 1 + |needle|];
    }
  }

  /** `Contains` agrees with the positional definition of a substring. */
  lemma {:induction false} ContainsIff(hay: string, needle: string)
    ensures Contains(hay, needle) <==> exists k :: OccursAt(hay, needle, k)
    decreases |hay|
  {
    OccursAtStart(hay, needle);
    if needle <= hay {
    } else if hay == [] {
      assert forall k :: !OccursAt(hay, needle, k);
    } else {
      ContainsIff(hay[1..], needle);
      if Contains(hay[1..], needle) {
        var k :| OccursAt(hay[1..], needle, k);
        OccursAtShift(hay, needle, k);
      } else {
        forall k: int ensures !OccursAt(hay, needle, k) {
          if 0 < k {
            OccursAtShift(hay, needle, k - 1);
          }
        }
      }
    }
  }
}
