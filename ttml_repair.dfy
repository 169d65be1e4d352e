/**
 * The repair step of lrxy/converter/ttml.py `parse`:
 * `re.sub(r'&(?!#?[a-zA-Z0-9]+;)', '&amp;', input)` — every `&` that does not start an
 * entity or character reference becomes `&amp;`; everything else is kept.
 */
module TtmlRepair {
  import opened Text

  /** The end of the run of ASCII letters and digits that starts at `j`. */
  function AlnumRunEnd(s: string, j: nat): (k: nat)
    requires j <= |s|
    ensures j <= k <= |s|
    decreases |s| - j
  {
    if j < |s| && IsAlnum(s[j]) then AlnumRunEnd(s, j + 1) else j
  }

  /** Where the letters and digits of a reference start: after the `&` and an optional `#`. */
  function RefStart(s: string, i: nat): (j: nat)
    requires i < |s|
    ensures i + 1 <= j <= |s|
  {
    if i + 1 < |s| && s[i + 1] == '#' then i + 2 else i + 1
  }

  /** The lookahead `#?[a-zA-Z0-9]+;` holds after position `i`. The letters and digits
      are taken greedily; giving some back cannot help, as `;` is not one of them, and
      without the `#` the run would have to start at `#`, which is not one either. */
  predicate EntityAt(s: string, i: nat)
    requires i < |s|
  {
    var j := RefStart(s, i);
    var k := AlnumRunEnd(s, j);
    k > j && k < |s| && s[k] == ';'
  }

  /** An `&` at `i` that the pattern replaces. */
  predicate Bare(s: string, i: nat)
    requires i < |s|
  {
    s[i] == '&' && !EntityAt(s, i)
  }

  /** What the substitution writes for the characters from `i` on. */
  function RepairFrom(s: string, i: nat): string
    requires i <= |s|
    decreases |s| - i
  {
    if i == |s| then "" else (if Bare(s, i) then "&amp;" else [s[i]]) + RepairFrom(s, i + 1)
  }

  /** `re.sub(r'&(?!#?[a-zA-Z0-9]+;)', '&amp;', s)`. */
  function Repair(s: string): string
  {
    RepairFrom(s, 0)
  }

  /** Every `&` of `s` starts a reference. */
  predicate Escaped(s: string)
  {
    forall i | 0 <= i < |s| :: s[i] == '&' ==> EntityAt(s, i)
  }

  /** How many `&` from `i` on are replaced. */
  function BareCount(s: string, i: nat): nat
    requires i <= |s|
    decreases |s| - i
  {
    if i == |s| then 0 else (if Bare(s, i) then 1 else 0) + BareCount(s, i + 1)
  }

  // ---------------------------------------------------------------------------
  // Properties
  // ---------------------------------------------------------------------------

  /** A run of letters and digits from `j` up to a character that is not one ends at `k`. */
  lemma {:induction false} AlnumRunEndAt(s: string, j: nat, k: nat)
    requires j <= k <= |s| && (forall q | j <= q < k :: IsAlnum(s[q])) && (k < |s| ==> !IsAlnum(s[k]))
    ensures AlnumRunEnd(s, j) == k
    decreases k - j
  {
    if j < k {
      AlnumRunEndAt(s, j + 1, k);
    }
  }

  /** The run of letters and digits found by the scanner. */
  lemma {:induction false} AlnumRunEndSpec(s: string, j: nat)
    requires j <= |s|
    ensures var k := AlnumRunEnd(s, j);
      (forall q | j <= q < k :: IsAlnum(s[q])) && (k < |s| ==> !IsAlnum(s[k]))
    decreases |s| - j
  {
    if j < |s| && IsAlnum(s[j]) {
      AlnumRunEndSpec(s, j + 1);
    }
  }

  /** A reference at `i` is the characters `i .. k`: `&`, an optional `#`, a non-empty run
      of letters and digits, and `;`. None of them after the `&` is an `&`. */
  lemma EntityShape(s: string, i: nat)
    requires i < |s| && EntityAt(s, i)
    ensures var k := AlnumRunEnd(s, RefStart(s, i));
      && k < |s| && s[k] == ';'
      && forall q | i < q <= k :: s[q] != '&'
  {
    AlnumRunEndSpec(s, RefStart(s, i));
  }

  /** Whether a reference starts at `p` depends only on the characters of the reference:
      another text holding the same characters at `p'` has one there too. */
  lemma EntityCopied(s: string, i: nat, t: string, p: nat)
    requires i < |s| && EntityAt(s, i)
    requires var k := AlnumRunEnd(s, RefStart(s, i));
      p + (k - i) < |t| && forall q | p <= q <= p + (k - i) :: t[q] == s[i + (q - p)]
    ensures EntityAt(t, p)
  {
    var j, k := RefStart(s, i), AlnumRunEnd(s, RefStart(s, i));
    AlnumRunEndSpec(s, j);
    assert t[p + (k - i)] == s[k];
    if j == i + 2 {
      assert t[p + 1] == s[i + 1];
    } else if i + 1 < |s| {
      assert t[p + 1] == s[i + 1];
    }
    assert RefStart(t, p) == p + (j - i);
    forall q | p + (j - i) <= q < p + (k - i)
      ensures IsAlnum(t[q])
    {
      assert t[q] == s[i + (q - p)];
    }
    AlnumRunEndAt(t, p + (j - i), p + (k - i));
  }

  /** Characters that are not `&` are copied as they are. */
  lemma {:induction false} CopiesPlain(s: string, i: nat, k: nat)
    requires i <= k <= |s| && forall q | i <= q < k :: s[q] != '&'
    ensures RepairFrom(s, i) == s[i..k] + RepairFrom(s, k)
    decreases k - i
  {
    if i < k {
      CopiesPlain(s, i + 1, k);
      assert s[i..k] == [s[i]] + s[i + 1..k];
    } else {
      assert s[i..k] == [];
    }
  }

  /** A reference is still a reference after the repair. */
  lemma EntityKept(s: string, i: nat)
    requires i < |s| && EntityAt(s, i)
    ensures EntityAt(RepairFrom(s, i), 0)
  {
    var k := AlnumRunEnd(s, RefStart(s, i));
    EntityShape(s, i);
    CopiesPlain(s, i + 1, k + 1);
    var t, x := RepairFrom(s, i), s[i + 1..k + 1];
    assert t == [s[i]] + (x + RepairFrom(s, k + 1));
    forall q | 0 <= q <= 0 + (k - i)
      ensures t[q] == s[i + (q - 0)]
    {
      if q > 0 {
        assert t[q] == (x + RepairFrom(s, k + 1))[q - 1] == x[q - 1];
      }
    }
    EntityCopied(s, i, t, 0);
  }

  /** `&amp;` is a reference. */
  lemma AmpIsEntity(t: string)
    requires |t| >= 5 && t[..5] == "&amp;"
    ensures EntityAt(t, 0)
  {
    assert t[1] == 'a' && t[2] == 'm' && t[3] == 'p' && t[4] == ';';
    AlnumRunEndAt(t, 1, 4);
  }

  /** Prefixing text moves the references with it. */
  lemma {:induction false} AlnumRunShift(a: string, b: string, j: nat)
    requires j <= |b|
    ensures AlnumRunEnd(a + b, |a| + j) == |a| + AlnumRunEnd(b, j)
    decreases |b| - j
  {
    if j < |b| && IsAlnum(b[j]) {
      assert (a + b)[|a| + j] == b[j];
      AlnumRunShift(a, b, j + 1);
    } else if j < |b| {
      assert (a + b)[|a| + j] == b[j];
    }
  }

  lemma EntityShift(a: string, b: string, i: nat)
    requires i < |b|
    ensures EntityAt(a + b, |a| + i) == EntityAt(b, i)
  {
    var s := a + b;
    if i + 1 < |b| {
      assert s[|a| + i + 1] == b[i + 1];
    }
    assert RefStart(s, |a| + i) == |a| + RefStart(b, i);
    AlnumRunShift(a, b, RefStart(b, i));
    var k := AlnumRunEnd(b, RefStart(b, i));
    if k < |b| {
      assert s[|a| + k] == b[k];
    }
  }

  /** After the repair every `&` starts a reference. */
  lemma {:induction false} RepairEscapes(s: string, i: nat)
    requires i <= |s|
    ensures Escaped(RepairFrom(s, i))
    decreases |s| - i
  {
    if i < |s| {
      var piece := if Bare(s, i) then "&amp;" else [s[i]];
      var rest := RepairFrom(s, i + 1);
      var t := RepairFrom(s, i);
      assert t == piece + rest;
      RepairEscapes(s, i + 1);
      forall p | 0 <= p < |t| && t[p] == '&'
        ensures EntityAt(t, p)
      {
        if p >= |piece| {
          assert t[p] == rest[p - |piece|];
          EntityShift(piece, rest, p - |piece|);
        } else if Bare(s, i) {
          assert t[..5] == "&amp;";
          assert p == 0;
          AmpIsEntity(t);
        } else {
          EntityKept(s, i);
        }
      }
    }
  }

  /** Text whose every `&` starts a reference comes through unchanged. */
  lemma {:induction false} EscapedKept(s: string, i: nat)
    requires Escaped(s) && i <= |s|
    ensures RepairFrom(s, i) == s[i..]
    decreases |s| - i
  {
    if i < |s| {
      EscapedKept(s, i + 1);
      assert s[i..] == [s[i]] + s[i + 1..];
    }
  }

  /** Each replaced `&` grows the text by four characters. */
  lemma {:induction false} RepairLength(s: string, i: nat)
    requires i <= |s|
    ensures |RepairFrom(s, i)| == |s| - i + 4 * BareCount(s, i)
    decreases |s| - i
  {
    if i < |s| {
      RepairLength(s, i + 1);
    }
  }

  /** A bare `&` at or after `i` is counted. */
  lemma {:induction false} BareCounted(s: string, i: nat, p: nat)
    requires i <= p < |s| && Bare(s, p)
    ensures BareCount(s, i) >= 1
    decreases p - i
  {
    if i < p {
      BareCounted(s, i + 1, p);
    }
  }

  /** The repair leaves a text unchanged exactly when every `&` in it already starts a
      reference. */
  lemma RepairUnchanged(s: string)
    ensures Repair(s) == s <==> Escaped(s)
  {
    if Escaped(s) {
      EscapedKept(s, 0);
      assert s[0..] == s;
    } else {
      var p :| 0 <= p < |s| && s[p] == '&' && !EntityAt(s, p);
      BareCounted(s, 0, p);
      RepairLength(s, 0);
    }
  }

  /** Repairing twice is repairing once. */
  lemma RepairIdempotent(s: string)
    ensures Repair(Repair(s)) == Repair(s)
  {
    RepairEscapes(s, 0);
    RepairUnchanged(Repair(s));
  }
}
