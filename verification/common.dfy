/** Values and list/string helpers shared by the face-tracking and form models. */
module Common {

  datatype Option<+T> = None | Some(value: T)

  datatype Result<+T, +E> = Ok(value: T) | Err(error: E)

  /** A face descriptor: the fixed-length embedding the detector returns. */
  type Descriptor = seq<real>

  /** An axis-aligned rectangle, as face-api reports a detection box. */
  datatype Box = Box(x: real, y: real, width: real, height: real)

  /** The attendance record the attendance API attaches to a visitor. */
  datatype Attendance = Attendance(checkIn: string, checkOut: Option<string>)

  /** The `visitor` object of a face-recognition reply; `attendance` may be absent. */
  datatype Visitor = Visitor(fullName: string, nik: string, companyName: string, attendance: Option<Attendance>)

  /** The `alertType` / `severity` of an alert; `Unset` is the initial empty string. */
  datatype AlertType = Unset | Success | Warning | Error

  /** JavaScript truthiness of a string value that may be null or undefined. */
  predicate Truthy(s: Option<string>)
  {
    s.Some? && s.value != ""
  }

  /** `s || fallback` on a string value that may be missing. */
  function OrElse(s: Option<string>, fallback: string): (r: string)
    ensures Truthy(s) ==> r == s.value
    ensures !Truthy(s) ==> r == fallback
  {
    if Truthy(s) then s.value else fallback
  }

  function Min(a: real, b: real): (m: real)
    ensures m <= a && m <= b && (m == a || m == b)
  {
    if a <= b then a else b
  }

  function Max(a: real, b: real): (m: real)
    ensures m >= a && m >= b && (m == a || m == b)
  {
    if a >= b then a else b
  }

  // ---------------------------------------------------------------------------
  // Array.prototype.filter and order-preserving subsequences

  /** `r` can be obtained from `s` by deleting elements, keeping the order. */
  predicate IsSubseq<T(==)>(r: seq<T>, s: seq<T>)
    decreases |s|
  {
    r == [] || (s != [] && ((r[0] == s[0] && IsSubseq(r[1..], s[1..])) || IsSubseq(r, s[1..])))
  }

  function Filter<T(==,!new)>(s: seq<T>, keep: T -> bool): (r: seq<T>)
    ensures |r| <= |s|
    ensures IsSubseq(r, s)
    ensures forall i :: 0 <= i < |r| ==> r[i] in s && keep(r[i])
    ensures forall i :: 0 <= i < |s| && keep(s[i]) ==> s[i] in r
    ensures forall x :: multiset(r)[x] == if keep(x) then multiset(s)[x] else 0
  {
    if s == [] then []
    else
      assert s == [s[0]] + s[1..];
      if keep(s[0]) then [s[0]] + Filter(s[1..], keep)
      else Filter(s[1..], keep)
  }

  /** Filtering a concatenation filters each part: the relative order of kept elements is the input order. */
  lemma {:induction false} FilterAppend<T(!new)>(a: seq<T>, b: seq<T>, keep: T -> bool)
    ensures Filter(a + b, keep) == Filter(a, keep) + Filter(b, keep)
  {
    if a == [] {
      assert a + b == b;
    } else {
      assert (a + b)[0] == a[0];
      assert (a + b)[1..] == a[1..] + b;
      FilterAppend(a[1..], b, keep);
    }
  }

  /** When every element passes, filtering returns the input itself. */
  lemma {:induction false} FilterKeepsAll<T(!new)>(s: seq<T>, keep: T -> bool)
    requires forall i :: 0 <= i < |s| ==> keep(s[i])
    ensures Filter(s, keep) == s
  {
    if s != [] {
      FilterKeepsAll(s[1..], keep);
    }
  }

  // ---------------------------------------------------------------------------
  // String.prototype.includes / startsWith

  predicate StartsWith(s: string, p: string)
  {
    |p| <= |s| && s[..|p|] == p
  }

  /** `s.includes(t)`: some position of `s` starts with `t`. */
  predicate Contains(s: string, t: string)
    decreases |s|
  {
    StartsWith(s, t) || (|s| > 0 && Contains(s[1..], t))
  }

  /** `t` occurs in `s` starting at position `i`. */
  predicate OccursAt(s: string, t: string, i: int)
  {
    0 <= i && i + |t| <= |s| && s[i..i + |t|] == t
  }

  /** The recursive `Contains` agrees with the positional definition of a substring. */
  lemma {:induction false} ContainsIff(s: string, t: string)
    ensures Contains(s, t) <==> exists i :: OccursAt(s, t, i)
  {
    if StartsWith(s, t) {
      assert OccursAt(s, t, 0);
    } else if |s| > 0 {
      ContainsIff(s[1..], t);
      if Contains(s[1..], t) {
        var i :| OccursAt(s[1..], t, i);
        assert s[1..][i..i + |t|] == s[i + 1..i + 1 + |t|];
        assert OccursAt(s, t, i + 1);
      }
      if exists i :: OccursAt(s, t, i) {
        var i :| OccursAt(s, t, i);
        assert i != 0;
        assert s[1..][i - 1..i - 1 + |t|] == s[i..i + |t|];
        assert OccursAt(s[1..], t, i - 1);
      }
    }
  }

  /** Every string includes the empty string. */
  lemma ContainsEmpty(s: string)
    ensures Contains(s, "")
  {
  }

  /** A string that includes a non-empty `t` has `t`'s first character somewhere. */
  lemma {:induction false} ContainsFirstChar(s: string, t: string)
    requires t != [] && Contains(s, t)
    ensures t[0] in s
  {
    if !StartsWith(s, t) {
      ContainsFirstChar(s[1..], t);
      assert t[0] in s[1..];
    } else {
      assert s[0] == t[0];
    }
  }

  /** A string never includes a longer one. */
  lemma {:induction false} ContainsLonger(s: string, t: string)
    requires |t| > |s|
    ensures !Contains(s, t)
  {
    if |s| > 0 {
      ContainsLonger(s[1..], t);
    }
  }

  // ---------------------------------------------------------------------------
  // String.prototype.toLowerCase on the ASCII letters

  function LowerChar(c: char): char
  {
    if 'A' <= c <= 'Z' then (c as int + 32) as char else c
  }

  function Lower(s: string): (r: string)
    ensures |r| == |s|
    ensures forall i :: 0 <= i < |s| ==> r[i] == LowerChar(s[i])
  {
    if s == [] then [] else [LowerChar(s[0])] + Lower(s[1..])
  }

  /** Lower-casing twice is lower-casing once. */
  lemma LowerIdempotent(s: string)
    ensures Lower(Lower(s)) == Lower(s)
  {
    assert forall i :: 0 <= i < |s| ==> LowerChar(LowerChar(s[i])) == LowerChar(s[i]);
  }

  // ---------------------------------------------------------------------------
  // String.prototype.length

  /** A character outside the Basic Multilingual Plane, stored as a UTF-16 surrogate pair. */
  predicate Astral(c: char)
  {
    c as int > 0xFFFF
  }

  /** `s.length`: UTF-16 code units, so an astral character counts twice. */
  function Utf16Length(s: string): (n: nat)
    ensures |s| <= n <= 2 * |s|
  {
    if s == [] then 0 else (if Astral(s[0]) then 2 else 1) + Utf16Length(s[1..])
  }

  /** Without astral characters the JavaScript length is the number of characters. */
  lemma {:induction false} Utf16LengthBmp(s: string)
    requires forall i :: 0 <= i < |s| ==> !Astral(s[i])
    ensures Utf16Length(s) == |s|
  {
    if s != [] {
      Utf16LengthBmp(s[1..]);
    }
  }

  // ---------------------------------------------------------------------------
  // Bounded FIFO histories of descriptors

  /** `history.push(x); if (history.length > cap) history.shift();` */
  function PushBounded(history: seq<Descriptor>, x: Descriptor, cap: nat): (r: seq<Descriptor>)
    requires cap >= 1
    ensures r != [] && r[|r| - 1] == x
    ensures |history| < cap ==> r == history + [x]
    ensures |history| >= cap ==> r == history[1..] + [x]
    ensures |history| <= cap ==> |r| <= cap
  {
    var pushed := history + [x];
    if |pushed| > cap then pushed[1..] else pushed
  }

  /** `history.some(h => dist(q, h) < threshold)` */
  predicate NearAny(history: seq<Descriptor>, q: Descriptor, threshold: real, dist: (Descriptor, Descriptor) -> real)
  {
    exists i :: 0 <= i < |history| && dist(q, history[i]) < threshold
  }
}
