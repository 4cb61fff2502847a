/**
 * The deduplication key of a movement (lib/fingerprint.ts): the soldier id, the
 * calendar-date part of the start time, and the trimmed, lower-cased origin and
 * destination, joined with '|'. Two movements with the same key count as the same
 * logical movement. The start time is taken as the ISO text that `toISOString`
 * yields for a `Date`.
 */
module Fingerprint {
  import opened Text

  /** `startTime.split('T')[0]`: the text before the first 'T', or all of it. */
  function DatePart(startTime: string): (d: string)
    ensures 'T' !in d
    ensures StartsWith(startTime, d)
    ensures |d| == |startTime| || startTime[|d|] == 'T'
  {
    Split(startTime, 'T')[0]
  }

  /** `s.trim().toLowerCase()` */
  function NormalizeLocation(s: string): (r: string)
    ensures r == [] || (!IsSpace(r[0]) && !IsSpace(r[|r| - 1]))
    ensures forall i :: 0 <= i < |r| ==> !IsUpper(r[i])
  {
    ToLower(Trim(s))
  }

  /**
   * `generateMovementFingerprint`: the soldier id, the date, and the normalised origin
   * and destination, joined by '|' in this order.
   */
  function GenerateMovementFingerprint(soldierId: string, startTime: string, from: string, to: string): (fp: string)
    ensures fp == Join([soldierId, DatePart(startTime), NormalizeLocation(from), NormalizeLocation(to)], '|')
  {
    TemplateIsJoin(soldierId, DatePart(startTime), NormalizeLocation(from), NormalizeLocation(to));
    soldierId + "|" + DatePart(startTime) + "|" + NormalizeLocation(from) + "|" + NormalizeLocation(to)
  }

  /** A '|'-template of four strings is their join. */
  lemma TemplateIsJoin(a: string, b: string, c: string, d: string)
    ensures a + "|" + b + "|" + c + "|" + d == Join([a, b, c, d], '|')
  {
    assert [a, b, c, d][1..] == [b, c, d];
    assert [b, c, d][1..] == [c, d];
    assert [c, d][1..] == [d];
    assert Join([c, d], '|') == c + "|" + d;
    assert Join([b, c, d], '|') == b + "|" + (c + "|" + d);
    assert Join([a, b, c, d], '|') == a + "|" + (b + "|" + (c + "|" + d));
  }

  /** The first '|'-field of a template is its first string, when that has no '|'. */
  lemma TemplateFirstField(a: string, b: string, c: string, d: string)
    requires '|' !in a
    ensures Split(a + "|" + b + "|" + c + "|" + d, '|')[0] == a
  {
    var rest := b + "|" + c + "|" + d;
    assert a + "|" + b + "|" + c + "|" + d == a + ['|'] + rest;
    IndexOfAfter(a, '|', rest);
    assert (a + ['|'] + rest)[..|a|] == a;
  }

  /** Text without whitespace or capitals is already normalised. */
  lemma NormalizeFixed(s: string)
    requires Plain(s)
    ensures NormalizeLocation(s) == s
  {
    assert TrimStart(s) == s;
    assert TrimEnd(s) == s;
    assert ToLower(s) == s;
  }

  /** No component contains the separator. */
  predicate SeparatorFree(soldierId: string, startTime: string, from: string, to: string) {
    '|' !in soldierId && '|' !in DatePart(startTime) && '|' !in NormalizeLocation(from) && '|' !in NormalizeLocation(to)
  }

  /** Splitting the key on '|' recovers the normalised components, when none contains '|'. */
  lemma FingerprintFields(soldierId: string, startTime: string, from: string, to: string)
    requires SeparatorFree(soldierId, startTime, from, to)
    ensures Split(GenerateMovementFingerprint(soldierId, startTime, from, to), '|')
         == [soldierId, DatePart(startTime), NormalizeLocation(from), NormalizeLocation(to)]
  {
    SplitJoin([soldierId, DatePart(startTime), NormalizeLocation(from), NormalizeLocation(to)], '|');
  }

  /** Distinct normalised tuples of separator-free components have distinct keys. */
  lemma FingerprintInjective(id1: string, t1: string, from1: string, to1: string,
                             id2: string, t2: string, from2: string, to2: string)
    requires SeparatorFree(id1, t1, from1, to1) && SeparatorFree(id2, t2, from2, to2)
    requires GenerateMovementFingerprint(id1, t1, from1, to1) == GenerateMovementFingerprint(id2, t2, from2, to2)
    ensures id1 == id2 && DatePart(t1) == DatePart(t2)
    ensures NormalizeLocation(from1) == NormalizeLocation(from2) && NormalizeLocation(to1) == NormalizeLocation(to2)
  {
    FingerprintFields(id1, t1, from1, to1);
    FingerprintFields(id2, t2, from2, to2);
  }

  /** Text that normalisation leaves alone: no whitespace and no capitals. */
  predicate Plain(s: string) {
    forall i :: 0 <= i < |s| ==> !IsSpace(s[i]) && !IsUpper(s[i])
  }

  lemma PlainBar(x: string, y: string)
    requires Plain(x) && Plain(y)
    ensures Plain(x + "|" + y)
  {
    var s := x + "|" + y;
    forall i | 0 <= i < |s|
      ensures !IsSpace(s[i]) && !IsUpper(s[i])
    {
      if i < |x| {
        assert s[i] == x[i];
      } else if i > |x| {
        assert s[i] == y[i - |x| - 1];
      }
    }
  }

  /**
   * Without the separator-free condition the join is not injective: a '|' inside a
   * location moves a field boundary, so the routes "x|y" to "z" and "x" to "y|z" share a key.
   */
  lemma FingerprintNotInjective(soldierId: string, startTime: string, x: string, y: string, z: string)
    requires Plain(x) && Plain(y) && Plain(z)
    ensures NormalizeLocation(x + "|" + y) != NormalizeLocation(x)
    ensures GenerateMovementFingerprint(soldierId, startTime, x + "|" + y, z)
         == GenerateMovementFingerprint(soldierId, startTime, x, y + "|" + z)
  {
    NormalizePlainBar(x, y);
    NormalizePlainBar(y, z);
    NormalizeFixed(x);
    NormalizeFixed(z);
    FingerprintOfNormalized(soldierId, startTime, x + "|" + y, z);
    FingerprintOfNormalized(soldierId, startTime, x, y + "|" + z);
    Regroup(soldierId + "|" + DatePart(startTime) + "|", x, y, z);
  }

  lemma NormalizePlainBar(x: string, y: string)
    requires Plain(x) && Plain(y)
    ensures NormalizeLocation(x + "|" + y) == x + "|" + y
  {
    PlainBar(x, y);
    NormalizeFixed(x + "|" + y);
  }

  lemma FingerprintOfNormalized(soldierId: string, startTime: string, from: string, to: string)
    requires NormalizeLocation(from) == from && NormalizeLocation(to) == to
    ensures GenerateMovementFingerprint(soldierId, startTime, from, to)
         == soldierId + "|" + DatePart(startTime) + "|" + from + "|" + to
  {
  }

  lemma Regroup(p: string, x: string, y: string, z: string)
    ensures p + (x + "|" + y) + "|" + z == p + x + "|" + (y + "|" + z)
  {
    AppendAssoc(p, x + "|" + y, "|" + z);
    AppendAssoc(x, "|" + y, "|" + z);
  }

  /** The time of day after the 'T' does not enter the key. */
  lemma TimeOfDayIgnored(soldierId: string, date: string, time1: string, time2: string, from: string, to: string)
    requires 'T' !in date
    ensures DatePart(date + "T" + time1) == date
    ensures GenerateMovementFingerprint(soldierId, date + "T" + time1, from, to)
         == GenerateMovementFingerprint(soldierId, date + "T" + time2, from, to)
  {
    IndexOfAfter(date, 'T', time1);
    IndexOfAfter(date, 'T', time2);
    assert (date + "T" + time1)[..|date|] == date;
    assert (date + "T" + time2)[..|date|] == date;
  }

  /** Locations that differ only in letter case normalise alike. */
  lemma NormalizeIgnoresCase(a: string, b: string)
    requires ToLower(a) == ToLower(b)
    ensures NormalizeLocation(a) == NormalizeLocation(b)
  {
    TrimLower(a);
    TrimLower(b);
  }

  /** Locations that differ only in leading or trailing whitespace normalise alike. */
  lemma NormalizeIgnoresPadding(p: string, x: string, q: string)
    requires AllSpace(p) && AllSpace(q)
    ensures NormalizeLocation(p + x + q) == NormalizeLocation(x)
  {
    TrimIgnoresPadding(p, x, q);
  }

  lemma NormalizeIdempotent(s: string)
    ensures NormalizeLocation(NormalizeLocation(s)) == NormalizeLocation(s)
  {
    var t := Trim(s);
    TrimLower(t);
    TrimIdempotent(s);
    LowerIdempotent(t);
  }

  /** Movements whose locations differ only in case or surrounding whitespace collide. */
  lemma LocationVariantsCollide(soldierId: string, startTime: string,
                                from1: string, to1: string, from2: string, to2: string,
                                p: string, q: string)
    requires ToLower(from1) == ToLower(from2) && ToLower(to1) == ToLower(to2)
    requires AllSpace(p) && AllSpace(q)
    ensures GenerateMovementFingerprint(soldierId, startTime, from1, to1)
         == GenerateMovementFingerprint(soldierId, startTime, p + from2 + q, q + to2 + p)
  {
    NormalizeIgnoresCase(from1, from2);
    NormalizeIgnoresCase(to1, to2);
    NormalizeIgnoresPadding(p, from2, q);
    NormalizeIgnoresPadding(q, to2, p);
  }

  /** A '|'-template is its first string followed by the rest of the template. */
  lemma TemplateSuffix(a: string, b: string, c: string, d: string)
    ensures a + "|" + b + "|" + c + "|" + d == a + ("|" + b + "|" + c + "|" + d)
  {
  }

  /** Different strings stay different when the same text follows them. */
  lemma DistinctPrefixes(a: string, b: string, rest: string)
    requires a != b
    ensures a + rest != b + rest
  {
    if |a| == |b| {
      var i :| 0 <= i < |a| && a[i] != b[i];
      assert (a + rest)[i] == a[i] && (b + rest)[i] == b[i];
    } else {
      assert |a + rest| != |b + rest|;
    }
  }

  /**
   * The soldier id is used verbatim, not normalised: ids that differ in any way,
   * letter case included, give different keys.
   */
  lemma SoldierIdVerbatim(id1: string, id2: string, startTime: string, from: string, to: string)
    requires id1 != id2
    ensures GenerateMovementFingerprint(id1, startTime, from, to) != GenerateMovementFingerprint(id2, startTime, from, to)
  {
    var d, f, t := DatePart(startTime), NormalizeLocation(from), NormalizeLocation(to);
    TemplateSuffix(id1, d, f, t);
    TemplateSuffix(id2, d, f, t);
    DistinctPrefixes(id1, id2, "|" + d + "|" + f + "|" + t);
  }
}
