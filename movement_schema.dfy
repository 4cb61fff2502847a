/**
 * The movement form's validation rules (schemas/movement.ts): field checks on the
 * submitted values and one refinement that the end time lies after the start time.
 * Issues are collected the way the validation library reports them: every failing
 * field check, and the refinement only once both dates are present.
 */
module MovementSchema {
  import opened Wrappers
  import opened Text

  datatype Field =
    | SoldierIdField | StartTimeField | EndTimeField | FromLocationField | ToLocationField
    | MovementTypeField | TransportModeField | TaAmountField

  /** A validation issue, attached to the field it concerns. */
  datatype Issue = Issue(path: Field, message: string)

  /**
   * The values the form submits. A date not yet picked is absent; dates are instants
   * (milliseconds since the epoch). The amount is an integer number of minor units.
   */
  datatype MovementFormValues = MovementFormValues(
    soldierId: string,
    startTime: Option<int>,
    endTime: Option<int>,
    fromLocation: string,
    toLocation: string,
    movementType: string,
    transportMode: string,
    taAmount: int,
    notes: Option<string>)

  // The messages the form shows next to a field whose rule fails.
  const InvalidPersonnelMessage: string := "Please select a valid personnel"
  const StartRequiredMessage: string := "Start time is required"
  const EndRequiredMessage: string := "End time is required"
  const FromRequiredMessage: string := "From location is required"
  const ToRequiredMessage: string := "To location is required"
  const TypeRequiredMessage: string := "Type is required"
  const ModeRequiredMessage: string := "Mode is required"
  const NegativeAmountMessage: string := "TA Amount must be positive"
  const EndBeforeStartMessage: string := "End time must be after start time"

  predicate IsHexDigit(c: char) {
    '0' <= c <= '9' || 'a' <= c <= 'f' || 'A' <= c <= 'F'
  }

  predicate IsGroupSeparator(i: int) {
    i == 8 || i == 13 || i == 18 || i == 23
  }

  /** UUID text: 36 characters, hexadecimal digits in groups of 8-4-4-4-12 separated by '-'. */
  predicate IsUuid(s: string) {
    |s| == 36 && forall i :: 0 <= i < 36 ==> if IsGroupSeparator(i) then s[i] == '-' else IsHexDigit(s[i])
  }

  predicate IsHexGroup(g: string, n: nat) {
    |g| == n && forall i :: 0 <= i < |g| ==> IsHexDigit(g[i])
  }

  /** The same format described by its groups: splitting on '-' gives hex groups of 8, 4, 4, 4 and 12. */
  predicate HasUuidGroups(s: string) {
    var g := Split(s, '-');
    |g| == 5 && IsHexGroup(g[0], 8) && IsHexGroup(g[1], 4) && IsHexGroup(g[2], 4)
    && IsHexGroup(g[3], 4) && IsHexGroup(g[4], 12)
  }

  lemma JoinFive(a: string, b: string, c: string, d: string, e: string, sep: char)
    ensures Join([a, b, c, d, e], sep) == a + [sep] + b + [sep] + c + [sep] + d + [sep] + e
  {
    assert [a, b, c, d, e][1..] == [b, c, d, e];
    assert [b, c, d, e][1..] == [c, d, e];
    assert [c, d, e][1..] == [d, e];
    assert [d, e][1..] == [e];
    assert Join([d, e], sep) == d + [sep] + e;
    assert Join([c, d, e], sep) == c + [sep] + (d + [sep] + e);
    assert Join([b, c, d, e], sep) == b + [sep] + (c + [sep] + (d + [sep] + e));
    assert Join([a, b, c, d, e], sep) == a + [sep] + (b + [sep] + (c + [sep] + (d + [sep] + e)));
  }

  lemma HexGroupHasNoDash(s: string, lo: nat, hi: nat)
    requires IsUuid(s) && lo <= hi <= 36
    requires forall i :: lo <= i < hi ==> !IsGroupSeparator(i)
    ensures '-' !in s[lo..hi]
    ensures IsHexGroup(s[lo..hi], hi - lo)
  {
    forall i | 0 <= i < hi - lo
      ensures s[lo..hi][i] != '-' && IsHexDigit(s[lo..hi][i])
    {
      assert s[lo..hi][i] == s[lo + i];
      assert IsHexDigit(s[lo + i]);
    }
  }

  /** UUID text is its five groups joined by '-'. */
  lemma UuidIsJoin(s: string)
    requires IsUuid(s)
    ensures s == Join([s[0..8], s[9..13], s[14..18], s[19..23], s[24..36]], '-')
  {
    JoinFive(s[0..8], s[9..13], s[14..18], s[19..23], s[24..36], '-');
    assert s[8] == '-' && s[13] == '-' && s[18] == '-' && s[23] == '-';
    assert s == s[0..8] + [s[8]] + s[9..13] + [s[13]] + s[14..18] + [s[18]] + s[19..23] + [s[23]] + s[24..36];
  }

  lemma UuidHasGroups(s: string)
    requires IsUuid(s)
    ensures HasUuidGroups(s)
  {
    HexGroupHasNoDash(s, 0, 8);
    HexGroupHasNoDash(s, 9, 13);
    HexGroupHasNoDash(s, 14, 18);
    HexGroupHasNoDash(s, 19, 23);
    HexGroupHasNoDash(s, 24, 36);
    var g := [s[0..8], s[9..13], s[14..18], s[19..23], s[24..36]];
    assert forall p :: p in g ==> '-' !in p;
    UuidIsJoin(s);
    SplitJoin(g, '-');
    assert Split(s, '-') == g;
  }

  lemma GroupsMakeUuid(s: string)
    requires HasUuidGroups(s)
    ensures IsUuid(s)
  {
    var g := Split(s, '-');
    JoinSplit(s, '-');
    assert g == [g[0], g[1], g[2], g[3], g[4]];
    JoinFive(g[0], g[1], g[2], g[3], g[4], '-');
    assert s == g[0] + "-" + g[1] + "-" + g[2] + "-" + g[3] + "-" + g[4];
    forall i | 0 <= i < 36
      ensures if IsGroupSeparator(i) then s[i] == '-' else IsHexDigit(s[i])
    {
      if i < 8 { assert s[i] == g[0][i]; }
      else if i == 8 { }
      else if i < 13 { assert s[i] == g[1][i - 9]; }
      else if i == 13 { }
      else if i < 18 { assert s[i] == g[2][i - 14]; }
      else if i == 18 { }
      else if i < 23 { assert s[i] == g[3][i - 19]; }
      else if i == 23 { }
      else { assert s[i] == g[4][i - 24]; }
    }
  }

  /** The positional and the group description of UUID text agree. */
  lemma UuidIffGroups(s: string)
    ensures IsUuid(s) <==> HasUuidGroups(s)
  {
    if IsUuid(s) {
      UuidHasGroups(s);
    }
    if HasUuidGroups(s) {
      GroupsMakeUuid(s);
    }
  }

  /** The fields an issue list mentions. */
  function Paths(issues: seq<Issue>): set<Field> {
    if issues == [] then {} else {issues[0].path} + Paths(issues[1..])
  }

  lemma {:induction false} PathsAppend(a: seq<Issue>, b: seq<Issue>)
    ensures Paths(a + b) == Paths(a) + Paths(b)
  {
    if a != [] {
      assert (a + b)[0] == a[0];
      assert (a + b)[1..] == a[1..] + b;
      PathsAppend(a[1..], b);
    } else {
      assert a + b == b;
    }
  }

  /** A one-issue list when the rule fails, empty otherwise. */
  function Check(ok: bool, path: Field, message: string): (issues: seq<Issue>)
    ensures Paths(issues) == if ok then {} else {path}
  {
    if ok then [] else [Issue(path, message)]
  }

  /** The issues of the field rules, in the fields' order. */
  function FieldIssues(v: MovementFormValues): seq<Issue> {
    Check(IsUuid(v.soldierId), SoldierIdField, InvalidPersonnelMessage)
    + Check(v.startTime.Some?, StartTimeField, StartRequiredMessage)
    + Check(v.endTime.Some?, EndTimeField, EndRequiredMessage)
    + Check(|v.fromLocation| >= 2, FromLocationField, FromRequiredMessage)
    + Check(|v.toLocation| >= 2, ToLocationField, ToRequiredMessage)
    + Check(|v.movementType| >= 1, MovementTypeField, TypeRequiredMessage)
    + Check(|v.transportMode| >= 1, TransportModeField, ModeRequiredMessage)
    + Check(v.taAmount >= 0, TaAmountField, NegativeAmountMessage)
  }

  /** The end-after-start refinement; it runs only once both dates are present. */
  function RefinementIssues(v: MovementFormValues): seq<Issue> {
    if v.startTime.Some? && v.endTime.Some? then
      Check(v.endTime.value > v.startTime.value, EndTimeField, EndBeforeStartMessage)
    else
      []
  }

  /** `movementSchema.safeParse(values)`: the issues found, none for valid values. */
  function Validate(v: MovementFormValues): (issues: seq<Issue>)
    ensures issues == [] <==>
      IsUuid(v.soldierId) && v.startTime.Some? && v.endTime.Some? && v.endTime.value > v.startTime.value
      && |v.fromLocation| >= 2 && |v.toLocation| >= 2 && |v.movementType| >= 1 && |v.transportMode| >= 1
      && v.taAmount >= 0
  {
    FieldIssues(v) + RefinementIssues(v)
  }

  lemma PathsOfNine(c1: seq<Issue>, c2: seq<Issue>, c3: seq<Issue>, c4: seq<Issue>, c5: seq<Issue>,
                    c6: seq<Issue>, c7: seq<Issue>, c8: seq<Issue>, r: seq<Issue>)
    ensures Paths(c1 + c2 + c3 + c4 + c5 + c6 + c7 + c8 + r)
         == Paths(c1) + Paths(c2) + Paths(c3) + Paths(c4) + Paths(c5) + Paths(c6) + Paths(c7) + Paths(c8) + Paths(r)
  {
    PathsAppend(c1, c2);
    PathsAppend(c1 + c2, c3);
    PathsAppend(c1 + c2 + c3, c4);
    PathsAppend(c1 + c2 + c3 + c4, c5);
    PathsAppend(c1 + c2 + c3 + c4 + c5, c6);
    PathsAppend(c1 + c2 + c3 + c4 + c5 + c6, c7);
    PathsAppend(c1 + c2 + c3 + c4 + c5 + c6 + c7, c8);
    PathsAppend(c1 + c2 + c3 + c4 + c5 + c6 + c7 + c8, r);
  }

  /** The fields of a list of eight checks and a tail, whatever the messages. */
  lemma PathsOfChecks(b1: bool, b2: bool, b3: bool, b4: bool, b5: bool, b6: bool, b7: bool, b8: bool,
                      m1: string, m2: string, m3: string, m4: string, m5: string, m6: string, m7: string, m8: string,
                      r: seq<Issue>)
    ensures Paths(Check(b1, SoldierIdField, m1) + Check(b2, StartTimeField, m2) + Check(b3, EndTimeField, m3)
                  + Check(b4, FromLocationField, m4) + Check(b5, ToLocationField, m5)
                  + Check(b6, MovementTypeField, m6) + Check(b7, TransportModeField, m7)
                  + Check(b8, TaAmountField, m8) + r)
         == FailedSet(b1, b2, b3, b4, b5, b6, b7, b8, Paths(r))
  {
    PathsOfNine(Check(b1, SoldierIdField, m1), Check(b2, StartTimeField, m2), Check(b3, EndTimeField, m3),
                Check(b4, FromLocationField, m4), Check(b5, ToLocationField, m5),
                Check(b6, MovementTypeField, m6), Check(b7, TransportModeField, m7),
                Check(b8, TaAmountField, m8), r);
  }

  /** The fields of the eight field rules that fail, given whether each passes, and further fields. */
  function FailedSet(b1: bool, b2: bool, b3: bool, b4: bool, b5: bool, b6: bool, b7: bool, b8: bool,
                     rest: set<Field>): set<Field> {
    (if b1 then {} else {SoldierIdField}) + (if b2 then {} else {StartTimeField})
    + (if b3 then {} else {EndTimeField}) + (if b4 then {} else {FromLocationField})
    + (if b5 then {} else {ToLocationField}) + (if b6 then {} else {MovementTypeField})
    + (if b7 then {} else {TransportModeField}) + (if b8 then {} else {TaAmountField}) + rest
  }

  /** The field the refinement fails on: end_time, when both dates are present and end is not after start. */
  function RefinementFailed(v: MovementFormValues): set<Field> {
    if v.startTime.Some? && v.endTime.Some? && v.endTime.value <= v.startTime.value then {EndTimeField} else {}
  }

  /** The fields whose rules the values fail: the field checks, then the refinement. */
  function FailedFields(v: MovementFormValues): set<Field> {
    FailedSet(IsUuid(v.soldierId), v.startTime.Some?, v.endTime.Some?, |v.fromLocation| >= 2,
              |v.toLocation| >= 2, |v.movementType| >= 1, |v.transportMode| >= 1, v.taAmount >= 0,
              RefinementFailed(v))
  }

  /** Validation reports exactly the fields whose rules fail. */
  lemma ReportedAreFailed(v: MovementFormValues)
    ensures Paths(Validate(v)) == FailedFields(v)
  {
    var r := RefinementIssues(v);
    assert Paths(r) == RefinementFailed(v);
    PathsOfChecks(IsUuid(v.soldierId), v.startTime.Some?, v.endTime.Some?, |v.fromLocation| >= 2,
                  |v.toLocation| >= 2, |v.movementType| >= 1, |v.transportMode| >= 1, v.taAmount >= 0,
                  InvalidPersonnelMessage, StartRequiredMessage, EndRequiredMessage,
                  FromRequiredMessage, ToRequiredMessage, TypeRequiredMessage,
                  ModeRequiredMessage, NegativeAmountMessage, r);
  }

  /** The id and date fields are reported exactly when their rules fail. */
  lemma FailedIdAndDates(v: MovementFormValues)
    ensures SoldierIdField in FailedFields(v) <==> !IsUuid(v.soldierId)
    ensures StartTimeField in FailedFields(v) <==> v.startTime.None?
    ensures EndTimeField in FailedFields(v) <==>
      v.endTime.None? || (v.startTime.Some? && v.endTime.value <= v.startTime.value)
    ensures FromLocationField in FailedFields(v) <==> |v.fromLocation| < 2
  {
  }

  /** The remaining fields are reported exactly when their rules fail. */
  lemma FailedRouteAndAmount(v: MovementFormValues)
    ensures ToLocationField in FailedFields(v) <==> |v.toLocation| < 2
    ensures MovementTypeField in FailedFields(v) <==> |v.movementType| < 1
    ensures TransportModeField in FailedFields(v) <==> |v.transportMode| < 1
    ensures TaAmountField in FailedFields(v) <==> v.taAmount < 0
  {
  }

  predicate IsValid(v: MovementFormValues) {
    Validate(v) == []
  }

  /** An end time at or before the start time is rejected with the refinement's message on end_time. */
  lemma EndNotAfterStartRejected(v: MovementFormValues)
    requires v.startTime.Some? && v.endTime.Some? && v.endTime.value <= v.startTime.value
    ensures !IsValid(v)
    ensures Issue(EndTimeField, EndBeforeStartMessage) in Validate(v)
  {
  }

  /** Notes are optional: they never affect the outcome. */
  lemma NotesIrrelevant(v: MovementFormValues, notes: Option<string>)
    ensures Validate(v.(notes := notes)) == Validate(v)
  {
  }
}
