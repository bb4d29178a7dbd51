/**
 * The asset register: the asset state machine shared by the four asset
 * groups (buildings, machinery, office equipment, intangibles), the kanban
 * stage that follows the state, the code a new asset receives from its
 * type's sequence and the daily cron over the assets' legal documents.
 */
module AssetManagement {
  import opened Common
  import opened AssetLegalDocument

  datatype AssetState =
    | Draft | InUse
    // equipment
    | Repair | Maintenance | Liquidated
    // land and premises
    | Leased | LeaseIn | Renovation | Expiring | ContractEnded
    // all groups
    | Completed

  /** The state actions of the asset form. */
  datatype Action =
    | Confirm | Complete | SetToDraft
    | StartRepair | StartMaintenance | ReturnToUse | Liquidate
    | Lease | LeaseDirect | StartLeaseIn | StartRenovation | ReturnFromRenovation
    | MarkExpiring | EndContract | ReturnToUseFromLease

  /** The states each action accepts; every other state raises. */
  predicate Accepts(a: Action, s: AssetState) {
    match a
    case Confirm => s == Draft
    case Complete => s == Liquidated || s == ContractEnded || s == InUse
    case SetToDraft => true
    case StartRepair => s == InUse
    case StartMaintenance => s == InUse
    case ReturnToUse => s == Repair || s == Maintenance
    case Liquidate => s == InUse || s == Repair || s == Maintenance
    case Lease => s == InUse
    case LeaseDirect => s == Draft
    case StartLeaseIn => s == Draft
    case StartRenovation => s == InUse
    case ReturnFromRenovation => s == Renovation
    case MarkExpiring => s == Leased
    case EndContract => s == Leased || s == Expiring
    case ReturnToUseFromLease => s == ContractEnded
  }

  /** The state each action writes. */
  function Target(a: Action): AssetState {
    match a
    case Confirm => InUse
    case Complete => Completed
    case SetToDraft => Draft
    case StartRepair => Repair
    case StartMaintenance => Maintenance
    case ReturnToUse => InUse
    case Liquidate => Liquidated
    case Lease => Leased
    case LeaseDirect => Leased
    case StartLeaseIn => LeaseIn
    case StartRenovation => Renovation
    case ReturnFromRenovation => InUse
    case MarkExpiring => Expiring
    case EndContract => ContractEnded
    case ReturnToUseFromLease => InUse
  }

  /** One action on one asset: the new state, or None when the action raises. */
  function Step(s: AssetState, a: Action): Option<AssetState> {
    if Accepts(a, s) then Some(Target(a)) else None
  }

  /** A sequence of actions, stopping at the first that raises. */
  function Run(s: AssetState, actions: seq<Action>): Option<AssetState>
    decreases |actions|
  {
    if actions == [] then Some(s)
    else match Step(s, actions[0])
      case None => None
      case Some(t) => Run(t, actions[1..])
  }

  /** The moves the actions' own descriptions list, as a table independent of the guards. */
  const Moves: set<(AssetState, AssetState)> :=
    {(Draft, InUse), (Draft, Leased), (Draft, LeaseIn),
     (InUse, Repair), (InUse, Maintenance), (InUse, Liquidated), (InUse, Leased),
     (InUse, Renovation), (InUse, Completed),
     (Repair, InUse), (Maintenance, InUse), (Repair, Liquidated), (Maintenance, Liquidated),
     (Renovation, InUse), (Leased, Expiring), (Leased, ContractEnded), (Expiring, ContractEnded),
     (ContractEnded, InUse), (ContractEnded, Completed), (Liquidated, Completed)}

  /**
   * Apart from setting an asset back to draft, an action succeeds exactly
   * along one of the listed moves, and every listed move has an action.
   */
  lemma StepFollowsMoves(s: AssetState, t: AssetState)
    ensures t != Draft ==> ((exists a :: Step(s, a) == Some(t)) <==> (s, t) in Moves)
    ensures t == Draft ==> Step(s, SetToDraft) == Some(Draft)
  {
    if t != Draft && (s, t) in Moves {
      var a :| a in MoveActions(s, t) && Step(s, a) == Some(t);
    }
  }

  /** The actions that carry each listed move. */
  function MoveActions(s: AssetState, t: AssetState): (acts: set<Action>)
    requires (s, t) in Moves
    ensures exists a :: a in acts && Step(s, a) == Some(t)
  {
    match (s, t)
    case (Draft, InUse) => {Confirm}
    case (Draft, Leased) => {LeaseDirect}
    case (Draft, LeaseIn) => {StartLeaseIn}
    case (InUse, Repair) => {StartRepair}
    case (InUse, Maintenance) => {StartMaintenance}
    case (InUse, Liquidated) => {Liquidate}
    case (InUse, Leased) => {Lease}
    case (InUse, Renovation) => {StartRenovation}
    case (InUse, Completed) => {Complete}
    case (Repair, InUse) => {ReturnToUse}
    case (Maintenance, InUse) => {ReturnToUse}
    case (Repair, Liquidated) => {Liquidate}
    case (Maintenance, Liquidated) => {Liquidate}
    case (Renovation, InUse) => {ReturnFromRenovation}
    case (Leased, Expiring) => {MarkExpiring}
    case (Leased, ContractEnded) => {EndContract}
    case (Expiring, ContractEnded) => {EndContract}
    case (ContractEnded, InUse) => {ReturnToUseFromLease}
    case (ContractEnded, Completed) => {Complete}
    case (Liquidated, Completed) => {Complete}
  }

  /** From a new asset only activation, the two lease activations and set-to-draft succeed. */
  lemma DraftExits(a: Action)
    ensures Step(Draft, a).Some? <==> a in {Confirm, LeaseDirect, StartLeaseIn, SetToDraft}
  {
  }

  /** A completed asset is only ever set back to draft. */
  lemma CompletedIsFinal(a: Action)
    ensures Step(Completed, a).Some? <==> a == SetToDraft
  {
  }

  /** Every state is reached from a new asset by some run of actions. */
  lemma EveryStateReachable(t: AssetState)
    ensures exists actions :: Run(Draft, actions) == Some(t)
  {
    match t
    case Draft => assert Run(Draft, []) == Some(t);
    case InUse => assert Run(Draft, [Confirm]) == Some(t);
    case Repair => assert Run(Draft, [Confirm, StartRepair]) == Some(t);
    case Maintenance => assert Run(Draft, [Confirm, StartMaintenance]) == Some(t);
    case Liquidated => assert Run(Draft, [Confirm, Liquidate]) == Some(t);
    case Leased => assert Run(Draft, [LeaseDirect]) == Some(t);
    case LeaseIn => assert Run(Draft, [StartLeaseIn]) == Some(t);
    case Renovation => assert Run(Draft, [Confirm, StartRenovation]) == Some(t);
    case Expiring => assert Run(Draft, [LeaseDirect, MarkExpiring]) == Some(t);
    case ContractEnded => assert Run(Draft, [LeaseDirect, EndContract]) == Some(t);
    case Completed => assert Run(Draft, [Confirm, Complete]) == Some(t);
  }

  /** A run that succeeds is a successful shorter run followed by one successful step. */
  lemma {:induction false} RunEndsWithLast(s: AssetState, actions: seq<Action>, t: AssetState)
    requires actions != [] && Run(s, actions) == Some(t)
    ensures exists u :: Run(s, actions[..|actions| - 1]) == Some(u) && Step(u, actions[|actions| - 1]) == Some(t)
    decreases |actions|
  {
    var u := Step(s, actions[0]).value;
    if |actions| == 1 {
      assert actions[..0] == [];
      assert Run(s, []) == Some(s);
    } else {
      RunEndsWithLast(u, actions[1..], t);
      var rest := actions[1..];
      assert rest[..|rest| - 1] == actions[..|actions| - 1][1..];
      assert rest[|rest| - 1] == actions[|actions| - 1];
    }
  }

  /**
   * However an asset got there, it became completed by the complete action
   * from liquidated, ended-lease or in-use.
   */
  lemma RunIntoCompleted(s: AssetState, actions: seq<Action>)
    requires actions != [] && s != Completed && Run(s, actions) == Some(Completed)
    ensures exists i, u :: (0 <= i < |actions| && actions[i] == Complete && Run(s, actions[..i]) == Some(u) &&
      (u == Liquidated || u == ContractEnded || u == InUse))
  {
    RunEndsWithLast(s, actions, Completed);
    var n := |actions| - 1;
    var u :| Run(s, actions[..n]) == Some(u) && Step(u, actions[n]) == Some(Completed);
    // No step leads from completed back to completed, so the last step is the one that completes.
    assert actions[n] == Complete;
  }

  /** The kanban stages in search order (`sequence, id`), each tied to at most one state. */
  datatype Stage = Stage(id: nat, state: Option<AssetState>)

  /** `Stage.search([("state", "=", state)], limit=1)`: the first stage tied to the state. */
  function StageFor(stages: seq<Stage>, s: AssetState): (k: Option<nat>)
    ensures k.None? <==> forall i :: 0 <= i < |stages| ==> stages[i].state != Some(s)
    ensures k.Some? ==> exists i :: (0 <= i < |stages| && stages[i].state == Some(s) && stages[i].id == k.value &&
      (forall j :: 0 <= j < i ==> stages[j].state != Some(s)))
    decreases |stages|
  {
    if stages == [] then None
    else if stages[0].state == Some(s) then Some(stages[0].id)
    else
      var r := StageFor(stages[1..], s);
      assert r.Some? ==> exists i :: (1 <= i < |stages| && stages[i].state == Some(s) && stages[i].id == r.value &&
        (forall j :: 0 <= j < i ==> stages[j].state != Some(s))) by {
        if r.Some? {
          var i :| 0 <= i < |stages| - 1 && stages[1..][i].state == Some(s) && stages[1..][i].id == r.value &&
            (forall j :: 0 <= j < i ==> stages[1..][j].state != Some(s));
          assert stages[i + 1] == stages[1..][i];
          assert forall j :: 1 <= j < i + 1 ==> stages[j] == stages[1..][j - 1];
        }
      }
      r
  }

  /** `_sync_stage_from_state`: the stage tied to the new state, or the old stage when there is none. */
  function SyncedStage(stages: seq<Stage>, s: AssetState, current: Option<nat>): Option<nat> {
    match StageFor(stages, s)
    case Some(id) => Some(id)
    case None => current
  }

  /** Syncing again after a sync changes nothing. */
  lemma SyncedStageIdempotent(stages: seq<Stage>, s: AssetState, current: Option<nat>)
    ensures SyncedStage(stages, s, SyncedStage(stages, s, current)) == SyncedStage(stages, s, current)
  {
  }

  /** When every state has its stage, the stage after a sync names the state it follows. */
  lemma SyncedStageMatchesState(stages: seq<Stage>, s: AssetState, current: Option<nat>)
    requires forall i, j :: 0 <= i < |stages| && 0 <= j < |stages| && stages[i].id == stages[j].id ==> i == j
    requires exists i :: 0 <= i < |stages| && stages[i].state == Some(s)
    ensures var k := SyncedStage(stages, s, current);
      k.Some? && exists i :: 0 <= i < |stages| && stages[i].id == k.value && stages[i].state == Some(s)
  {
  }

  datatype Status = Ok | Refused(action: Action)

  // ---------------------------------------------------------------------
  // Code sequences
  // ---------------------------------------------------------------------

  /** The three parts of a concatenation read back by slicing. */
  lemma MiddleOf(p: string, m: string, s: string)
    ensures var c := p + m + s;
      c[..|p|] == p && c[|c| - |s|..] == s && c[|p|..|c| - |s|] == m
  {
    var c := p + m + s;
    assert c[..|p|] == p;
    assert c[|c| - |s|..] == s;
    assert c[|p|..|c| - |s|] == m;
  }

  /** A piece of a sequence's prefix or suffix: literal text, or a field of the date a number is drawn on. */
  datatype AffixPiece = Text(text: string) | Year | Year2 | Month | Day

  /** The date `ir.sequence` interpolates into a prefix or suffix. */
  datatype Calendar = Calendar(year: nat, month: nat, day: nat)

  /** `%(year)s`, `%(y)s`, `%(month)s` and `%(day)s`: the year, its last two digits, the two-digit month and day. */
  function AffixText(p: AffixPiece, date: Calendar): string {
    match p
    case Text(t) => t
    case Year => NatToString(date.year)
    case Year2 => ZeroPad(date.year % 100, 2)
    case Month => ZeroPad(date.month, 2)
    case Day => ZeroPad(date.day, 2)
  }

  function Interpolate(affix: seq<AffixPiece>, date: Calendar): string
    decreases |affix|
  {
    if affix == [] then "" else AffixText(affix[0], date) + Interpolate(affix[1..], date)
  }

  /** An `ir.sequence` with a prefix, a suffix, zero padding and an increment of one. */
  class Sequence {
    const prefix: seq<AffixPiece>
    const suffix: seq<AffixPiece>
    const padding: nat
    var numberNext: nat

    constructor (prefix: seq<AffixPiece>, suffix: seq<AffixPiece>, padding: nat, numberNext: nat)
      ensures this.prefix == prefix && this.suffix == suffix && this.padding == padding
      ensures this.numberNext == numberNext
    {
      this.prefix := prefix;
      this.suffix := suffix;
      this.padding := padding;
      this.numberNext := numberNext;
    }

    /**
     * The code of number `n` drawn on `date`: the interpolated prefix, the
     * number padded to at least `padding` digits, the interpolated suffix.
     */
    function Format(n: nat, date: Calendar): (code: string)
      ensures var p, s := Interpolate(prefix, date), Interpolate(suffix, date);
        |p| + padding + |s| <= |code| && code[..|p|] == p && code[|code| - |s|..] == s &&
        AllDigits(code[|p|..|code| - |s|])
    {
      var p, m, s := Interpolate(prefix, date), ZeroPad(n, padding), Interpolate(suffix, date);
      MiddleOf(p, m, s);
      p + m + s
    }

    /** The number reads back from between the prefix and the suffix of its code. */
    lemma FormatReadsBack(n: nat, date: Calendar)
      ensures var code, p, s := Format(n, date), Interpolate(prefix, date), Interpolate(suffix, date);
        |p| + padding + |s| <= |code| && code[..|p|] == p && code[|code| - |s|..] == s &&
        AllDigits(code[|p|..|code| - |s|]) && DigitsValue(code[|p|..|code| - |s|]) == n
    {
      ZeroPadValue(n, padding);
      MiddleOf(Interpolate(prefix, date), ZeroPad(n, padding), Interpolate(suffix, date));
    }

    /** Two numbers of one sequence drawn on the same date never share a code. */
    lemma FormatInjective(m: nat, n: nat, date: Calendar)
      requires Format(m, date) == Format(n, date)
      ensures m == n
    {
      FormatReadsBack(m, date);
      FormatReadsBack(n, date);
    }

    /** `next_by_id`: the code of the next number, which is then used up. */
    method Next(date: Calendar) returns (code: string)
      modifies this`numberNext
      ensures code == Format(old(numberNext), date) && numberNext == old(numberNext) + 1
    {
      code := Format(numberNext, date);
      numberNext := numberNext + 1;
    }
  }

  /**
   * The code shape `STT.YY/TS-NHÓM-TRS` (for instance `01.26/TS-NXCT-TRS`):
   * a sequence with no prefix, two digits and the suffix
   * `.%(y)s/TS-<group>-TRS` renders the number, a dot, the two-digit year
   * and the group.
   */
  lemma DocumentedCode(s: Sequence, n: nat, group: string, date: Calendar)
    requires s.prefix == [] && s.padding == 2 && s.suffix == [Text("."), Year2, Text("/TS-" + group + "-TRS")]
    ensures s.Format(n, date) == ZeroPad(n, 2) + "." + ZeroPad(date.year % 100, 2) + ("/TS-" + group + "-TRS")
  {
    var t := "/TS-" + group + "-TRS";
    var y := ZeroPad(date.year % 100, 2);
    InterpolateThree(Text("."), Year2, Text(t), date);
    assert s.Format(n, date) == Interpolate(s.prefix, date) + ZeroPad(n, 2) + Interpolate(s.suffix, date);
    assert Interpolate(s.prefix, date) == "";
    assert Interpolate(s.suffix, date) == "." + y + t;
    assert "" + ZeroPad(n, 2) + ("." + y + t) == ZeroPad(n, 2) + "." + y + t;
  }

  lemma InterpolateThree(a: AffixPiece, b: AffixPiece, c: AffixPiece, date: Calendar)
    ensures Interpolate([a, b, c], date) == AffixText(a, date) + AffixText(b, date) + AffixText(c, date)
  {
    assert [a, b, c][1..] == [b, c];
    assert [b, c][1..] == [c];
    assert [c][1..] == [];
    assert Interpolate([c], date) == AffixText(c, date);
    assert Interpolate([b, c], date) == AffixText(b, date) + AffixText(c, date);
  }

  /** A code the creator typed in is kept; an empty one, or the placeholder `New`, is assigned. */
  predicate NeedsCode(given: string) {
    given == "" || given == "New"
  }

  /** The sequence a new asset's code is drawn from: its type's, else the global one; none for a typed-in code. */
  function Source(given: string, typeSequence: Option<Sequence>, global: Option<Sequence>): Option<Sequence> {
    if !NeedsCode(given) then None else if typeSequence.Some? then typeSequence else global
  }

  /** What a new asset's code is when its source sequence stands at `n`. */
  function CodeAt(given: string, source: Option<Sequence>, n: nat, date: Calendar): string {
    match source
    case None => if NeedsCode(given) then "TS/NEW" else given
    case Some(s) => s.Format(n, date)
  }

  /**
   * The code of one new asset: a typed-in code is kept, otherwise the
   * type's sequence is drawn from, else the global asset sequence, else
   * the code is `TS/NEW`. Only the sequence drawn from moves, by one.
   */
  method DrawCode(given: string, typeSequence: Option<Sequence>, global: Option<Sequence>, date: Calendar)
    returns (code: string)
    modifies if typeSequence.Some? then {typeSequence.value} else {}
    modifies if global.Some? then {global.value} else {}
    ensures var src := Source(given, typeSequence, global);
      code == CodeAt(given, src, if src.Some? then old(src.value.numberNext) else 0, date)
    ensures var src := Source(given, typeSequence, global);
      src.Some? ==> src.value.numberNext == old(src.value.numberNext) + 1
    ensures typeSequence.Some? && Source(given, typeSequence, global) != typeSequence ==> unchanged(typeSequence.value)
    ensures global.Some? && Source(given, typeSequence, global) != global ==> unchanged(global.value)
  {
    code := given;
    if NeedsCode(given) {
      match typeSequence
      case Some(q) =>
        code := q.Next(date);
      case None =>
        if global.Some? {
          code := global.value.Next(date);
        } else {
          code := "TS/NEW";
        }
    }
  }

  /** Every sequence a batch may draw from: the types' sequences and the global one. */
  function SequencesOf(typeSequence: seq<Option<Sequence>>, global: Option<Sequence>): set<Sequence> {
    (set i | 0 <= i < |typeSequence| && typeSequence[i].Some? :: typeSequence[i].value) +
    (if global.Some? then {global.value} else {})
  }

  /** The sequence the i-th asset of a batch draws from, if any, is one of the batch's sequences. */
  lemma SourceOfBatch(given: seq<string>, typeSequence: seq<Option<Sequence>>, global: Option<Sequence>, i: nat)
    requires i < |given| == |typeSequence|
    ensures var src := Source(given[i], typeSequence[i], global);
      src.Some? ==> src.value in SequencesOf(typeSequence, global)
  {
    if NeedsCode(given[i]) && typeSequence[i].Some? {
      assert typeSequence[i].value in (set i | 0 <= i < |typeSequence| && typeSequence[i].Some? :: typeSequence[i].value);
    }
  }

  /** How many of the first `k` assets of a batch draw their code from `s`. */
  function DrawsFrom(given: seq<string>, typeSequence: seq<Option<Sequence>>, global: Option<Sequence>,
                     s: Sequence, k: nat): nat
  {
    if k == 0 || k > |given| || k > |typeSequence| then 0
    else DrawsFrom(given, typeSequence, global, s, k - 1) +
         (if Source(given[k - 1], typeSequence[k - 1], global) == Some(s) then 1 else 0)
  }

  /** A later asset drawing from the same sequence draws a later number. */
  lemma {:induction false} DrawsFromGrows(given: seq<string>, typeSequence: seq<Option<Sequence>>,
                                          global: Option<Sequence>, s: Sequence, i: nat, j: nat)
    requires i < j <= |given| == |typeSequence|
    requires Source(given[i], typeSequence[i], global) == Some(s)
    ensures DrawsFrom(given, typeSequence, global, s, i) < DrawsFrom(given, typeSequence, global, s, j)
    decreases j
  {
    if j > i + 1 {
      DrawsFromGrows(given, typeSequence, global, s, i, j - 1);
    }
  }

  /** Every sequence `s` of the batch stands at its number `start[s]` before the batch plus its first `k` draws. */
  ghost predicate Counted(given: seq<string>, typeSequence: seq<Option<Sequence>>, global: Option<Sequence>,
                          start: map<Sequence, nat>, k: nat)
    reads start.Keys
  {
    forall s :: s in start ==> s.numberNext == start[s] + DrawsFrom(given, typeSequence, global, s, k)
  }

  /**
   * The number the i-th asset of a batch renders when `start` holds the
   * numbers its sequences stood at when the batch began.
   */
  ghost function NumberAt(given: seq<string>, typeSequence: seq<Option<Sequence>>, global: Option<Sequence>,
                          start: map<Sequence, nat>, i: nat): nat
  {
    if i < |given| && i < |typeSequence| then
      var src := Source(given[i], typeSequence[i], global);
      if src.Some? && src.value in start then start[src.value] + DrawsFrom(given, typeSequence, global, src.value, i)
      else 0
    else 0
  }

  /** The first `|codes|` assets of a batch took the codes `codes`. */
  ghost predicate CodesDrawn(given: seq<string>, typeSequence: seq<Option<Sequence>>, global: Option<Sequence>,
                             start: map<Sequence, nat>, date: Calendar, codes: seq<string>)
  {
    |codes| <= |given| && |codes| <= |typeSequence| &&
    forall i :: 0 <= i < |codes| ==>
      codes[i] == CodeAt(given[i], Source(given[i], typeSequence[i], global),
                         NumberAt(given, typeSequence, global, start, i), date)
  }

  /** Appending the next asset's code keeps the drawn codes described. */
  lemma CodesDrawnStep(given: seq<string>, typeSequence: seq<Option<Sequence>>, global: Option<Sequence>,
                       start: map<Sequence, nat>, date: Calendar, codes: seq<string>, code: string)
    requires CodesDrawn(given, typeSequence, global, start, date, codes)
    requires |codes| < |given| && |codes| < |typeSequence|
    requires code == CodeAt(given[|codes|], Source(given[|codes|], typeSequence[|codes|], global),
                            NumberAt(given, typeSequence, global, start, |codes|), date)
    ensures CodesDrawn(given, typeSequence, global, start, date, codes + [code])
  {
    var c := codes + [code];
    forall i | 0 <= i < |c|
      ensures c[i] == CodeAt(given[i], Source(given[i], typeSequence[i], global),
                             NumberAt(given, typeSequence, global, start, i), date)
    {
      if i < |codes| {
        assert c[i] == codes[i];
      }
    }
  }

  /** Two assets of a batch drawing from one sequence never share a code: one pair. */
  lemma CodesDistinctAt(given: seq<string>, typeSequence: seq<Option<Sequence>>, global: Option<Sequence>,
                        start: map<Sequence, nat>, date: Calendar, codes: seq<string>, i: nat, j: nat)
    requires i < j < |codes| == |given| == |typeSequence|
    requires CodesDrawn(given, typeSequence, global, start, date, codes)
    requires SequencesOf(typeSequence, global) <= start.Keys
    requires Source(given[i], typeSequence[i], global).Some?
    requires Source(given[i], typeSequence[i], global) == Source(given[j], typeSequence[j], global)
    ensures codes[i] != codes[j]
  {
    var s := Source(given[i], typeSequence[i], global).value;
    SourceOfBatch(given, typeSequence, global, i);
    var m := start[s] + DrawsFrom(given, typeSequence, global, s, i);
    var n := start[s] + DrawsFrom(given, typeSequence, global, s, j);
    assert codes[i] == s.Format(m, date);
    assert codes[j] == s.Format(n, date);
    DrawsFromGrows(given, typeSequence, global, s, i, j);
    if codes[i] == codes[j] {
      s.FormatInjective(m, n, date);
    }
  }

  /** Two assets of a batch drawing from one sequence never share a code. */
  lemma CodesDistinct(given: seq<string>, typeSequence: seq<Option<Sequence>>, global: Option<Sequence>,
                      start: map<Sequence, nat>, date: Calendar, codes: seq<string>)
    requires |codes| == |given| == |typeSequence|
    requires CodesDrawn(given, typeSequence, global, start, date, codes)
    requires SequencesOf(typeSequence, global) <= start.Keys
    ensures forall i, j :: 0 <= i < j < |given| && Source(given[i], typeSequence[i], global).Some? &&
                           Source(given[i], typeSequence[i], global) == Source(given[j], typeSequence[j], global)
                           ==> codes[i] != codes[j]
  {
    forall i, j | 0 <= i < j < |given| && Source(given[i], typeSequence[i], global).Some? &&
      Source(given[i], typeSequence[i], global) == Source(given[j], typeSequence[j], global)
      ensures codes[i] != codes[j]
    {
      CodesDistinctAt(given, typeSequence, global, start, date, codes, i, j);
    }
  }

  /** The k-th asset of a batch takes its code, and exactly its source sequence moves, by one. */
  method DrawAt(given: seq<string>, typeSequence: seq<Option<Sequence>>, global: Option<Sequence>,
                k: nat, date: Calendar)
    returns (code: string)
    requires k < |given| == |typeSequence|
    modifies SequencesOf(typeSequence, global)
    ensures var src := Source(given[k], typeSequence[k], global);
      code == CodeAt(given[k], src, if src.Some? then old(src.value.numberNext) else 0, date)
    ensures forall s :: s in SequencesOf(typeSequence, global) ==>
      s.numberNext == old(s.numberNext) + (if Source(given[k], typeSequence[k], global) == Some(s) then 1 else 0)
  {
    code := DrawCode(given[k], typeSequence[k], global, date);
  }

  /** One more draw keeps every sequence counted, stated on the numbers before and after the draw. */
  lemma CountedStep(given: seq<string>, typeSequence: seq<Option<Sequence>>, global: Option<Sequence>,
                    start: map<Sequence, nat>, k: nat, before: map<Sequence, nat>, after: map<Sequence, nat>)
    requires k < |given| == |typeSequence|
    requires before.Keys == start.Keys && after.Keys == start.Keys
    requires forall s: Sequence :: s in start ==> before[s] == start[s] + DrawsFrom(given, typeSequence, global, s, k)
    requires forall s: Sequence :: s in start ==>
      after[s] == before[s] + (if Source(given[k], typeSequence[k], global) == Some(s) then 1 else 0)
    ensures forall s: Sequence :: s in start ==> after[s] == start[s] + DrawsFrom(given, typeSequence, global, s, k + 1)
  {
  }

  /** The k-th draw of a batch, against the numbers its sequences stood at when the batch began. */
  method DrawCounted(given: seq<string>, typeSequence: seq<Option<Sequence>>, global: Option<Sequence>,
                     k: nat, date: Calendar, ghost start: map<Sequence, nat>)
    returns (code: string)
    requires k < |given| == |typeSequence|
    requires start.Keys == SequencesOf(typeSequence, global)
    requires Counted(given, typeSequence, global, start, k)
    modifies SequencesOf(typeSequence, global)
    ensures Counted(given, typeSequence, global, start, k + 1)
    ensures code == CodeAt(given[k], Source(given[k], typeSequence[k], global),
                           NumberAt(given, typeSequence, global, start, k), date)
  {
    ghost var src := Source(given[k], typeSequence[k], global);
    SourceOfBatch(given, typeSequence, global, k);
    assert src.Some? ==> src.value.numberNext == NumberAt(given, typeSequence, global, start, k);
    ghost var before := map s: Sequence | s in start :: s.numberNext;
    code := DrawAt(given, typeSequence, global, k, date);
    ghost var after := map s: Sequence | s in start :: s.numberNext;
    CountedStep(given, typeSequence, global, start, k, before, after);
  }

  /** Draws the codes of a whole batch in order, against the numbers in `start`. */
  method DrawAll(given: seq<string>, typeSequence: seq<Option<Sequence>>, global: Option<Sequence>,
                 date: Calendar, ghost start: map<Sequence, nat>)
    returns (codes: seq<string>)
    requires |typeSequence| == |given|
    requires start.Keys == SequencesOf(typeSequence, global)
    requires Counted(given, typeSequence, global, start, 0)
    modifies SequencesOf(typeSequence, global)
    ensures |codes| == |given|
    ensures CodesDrawn(given, typeSequence, global, start, date, codes)
    ensures Counted(given, typeSequence, global, start, |given|)
  {
    codes := [];
    while |codes| < |given|
      invariant CodesDrawn(given, typeSequence, global, start, date, codes)
      invariant Counted(given, typeSequence, global, start, |codes|)
      decreases |given| - |codes|
    {
      var code := DrawCounted(given, typeSequence, global, |codes|, date, start);
      CodesDrawnStep(given, typeSequence, global, start, date, codes, code);
      codes := codes + [code];
    }
  }

  /** The numbers a set of sequences stand at. */
  ghost function NumbersOf(sequences: set<Sequence>): map<Sequence, nat>
    reads sequences
  {
    map s: Sequence | s in sequences :: s.numberNext
  }

  /**
   * `create`'s code assignment over a batch of new assets created on
   * `date`, in order; `typeSequence[i]` is the sequence of the i-th asset's
   * type, if it has one. Against the numbers the batch's sequences stood at
   * before it, each drawn code renders its sequence's number plus the draws
   * from that sequence before it (`CodesDrawn`), each sequence moves by its
   * draws (`Counted`), and two assets drawing from one sequence never share
   * a code.
   */
  method AssignCodes(given: seq<string>, typeSequence: seq<Option<Sequence>>, global: Option<Sequence>,
                     date: Calendar)
    returns (codes: seq<string>)
    requires |typeSequence| == |given|
    modifies SequencesOf(typeSequence, global)
    ensures |codes| == |given|
    ensures CodesDrawn(given, typeSequence, global, old(NumbersOf(SequencesOf(typeSequence, global))), date, codes)
    ensures Counted(given, typeSequence, global, old(NumbersOf(SequencesOf(typeSequence, global))), |given|)
    ensures forall i, j :: 0 <= i < j < |given| && Source(given[i], typeSequence[i], global).Some? &&
                           Source(given[i], typeSequence[i], global) == Source(given[j], typeSequence[j], global)
                           ==> codes[i] != codes[j]
  {
    ghost var start := NumbersOf(SequencesOf(typeSequence, global));
    codes := DrawAll(given, typeSequence, global, date, start);
    CodesDistinct(given, typeSequence, global, start, date, codes);
  }

  // ---------------------------------------------------------------------
  // The record
  // ---------------------------------------------------------------------

  class Asset {
    const id: nat
    var code: string
    var name: string
    var state: AssetState
    var stageId: Option<nat>
    var supplierId: Option<nat>
    var departmentId: Option<nat>
    var responsibleUserId: Option<nat>

    /**
     * A new asset: state draft, in the stage the default names. That default
     * is the record with xmlid `trasas_asset_management.stage_draft`, or no
     * stage when that record is missing; `draftRecord` is its id.
     */
    constructor (id: nat, code: string, name: string, draftRecord: Option<nat>, responsible: Option<nat>)
      ensures this.id == id && this.code == code && this.name == name
      ensures state == Draft && stageId == draftRecord
      ensures supplierId.None? && departmentId.None? && responsibleUserId == responsible
    {
      this.id := id;
      this.code := code;
      this.name := name;
      state := Draft;
      stageId := draftRecord;
      supplierId := None;
      departmentId := None;
      responsibleUserId := responsible;
    }

    /** `write` of a state: the stage follows. */
    method WriteState(s: AssetState, stages: seq<Stage>)
      modifies this`state, this`stageId
      ensures state == s && stageId == SyncedStage(stages, s, old(stageId))
    {
      state := s;
      var stage := StageFor(stages, s);
      if stage.Some? && stageId != stage {
        stageId := stage;
      }
    }

    /** One of the `action_*` transitions on this asset. */
    method Act(a: Action, stages: seq<Stage>) returns (r: Status)
      modifies this`state, this`stageId
      ensures r == Ok <==> Step(old(state), a).Some?
      ensures r == Ok ==> state == Target(a) && stageId == SyncedStage(stages, state, old(stageId))
      ensures r != Ok ==> r == Refused(a) && state == old(state) && stageId == old(stageId)
    {
      if !Accepts(a, state) {
        return Refused(a);
      }
      WriteState(Target(a), stages);
      r := Ok;
    }
  }

  // ---------------------------------------------------------------------
  // The legal-document cron
  // ---------------------------------------------------------------------

  /** The first search of the cron: active documents ending within thirty days. */
  predicate ExpiringWindow(st: DocState, validity: Option<Day>, today: Day) {
    st == Active && validity.Some? && today <= validity.value <= today + 30
  }

  /** The second search: active or expiring documents already past their validity. */
  predicate PastValidity(st: DocState, validity: Option<Day>, today: Day) {
    (st == Active || st == ExpiringSoon) && validity.Some? && validity.value < today
  }

  /** The state a document has after the cron. */
  function AfterCron(st: DocState, validity: Option<Day>, today: Day): (r: DocState)
    ensures st == Revoked || st == Expired || validity.None? ==> r == st
    ensures validity.Some? && validity.value > today + 30 ==> r == st
  {
    if ExpiringWindow(st, validity, today) then ExpiringSoon
    else if PastValidity(st, validity, today) then Expired
    else st
  }

  /** A document is never marked both expiring and expired in one run, and the cron settles at once. */
  lemma AfterCronIdempotent(st: DocState, validity: Option<Day>, today: Day)
    ensures AfterCron(AfterCron(st, validity, today), validity, today) == AfterCron(st, validity, today)
    ensures !(ExpiringWindow(st, validity, today) && PastValidity(st, validity, today))
  {
  }

  /**
   * `_cron_check_expiring_documents`. It returns the documents warned as
   * expiring and the documents announced as expired, in search order; their
   * asset's chatter message, activity and e-mail follow each of them.
   */
  method CronCheckExpiringDocuments(docs: seq<LegalDocument>, today: Day)
    returns (expiring: seq<LegalDocument>, expired: seq<LegalDocument>)
    requires forall i, j :: 0 <= i < j < |docs| ==> docs[i] != docs[j]
    modifies (set d | d in docs)`state
    ensures forall i :: 0 <= i < |docs| ==>
      docs[i].state == AfterCron(old(docs[i].state), docs[i].validityDate, today)
    ensures forall d :: d in expiring <==> d in docs && ExpiringWindow(old(d.state), d.validityDate, today)
    ensures forall d :: d in expired <==> d in docs && PastValidity(old(d.state), d.validityDate, today)
  {
    expiring := [];
    var k := 0;
    while k < |docs|
      invariant 0 <= k <= |docs|
      invariant forall i :: 0 <= i < k ==>
        docs[i].state == (if ExpiringWindow(old(docs[i].state), docs[i].validityDate, today) then ExpiringSoon
                          else old(docs[i].state))
      invariant forall i :: k <= i < |docs| ==> docs[i].state == old(docs[i].state)
      invariant forall d :: d in expiring <==> d in docs[..k] && ExpiringWindow(old(d.state), d.validityDate, today)
    {
      var doc := docs[k];
      if ExpiringWindow(doc.state, doc.validityDate, today) {
        doc.state := ExpiringSoon;
        expiring := expiring + [doc];
      }
      assert docs[..k + 1] == docs[..k] + [doc];
      k := k + 1;
    }
    assert docs[..k] == docs;
    expired := [];
    k := 0;
    while k < |docs|
      invariant 0 <= k <= |docs|
      invariant forall i :: 0 <= i < k ==>
        docs[i].state == AfterCron(old(docs[i].state), docs[i].validityDate, today)
      invariant forall i :: k <= i < |docs| ==>
        docs[i].state == (if ExpiringWindow(old(docs[i].state), docs[i].validityDate, today) then ExpiringSoon
                          else old(docs[i].state))
      invariant forall d :: d in expired <==> d in docs[..k] && PastValidity(old(d.state), d.validityDate, today)
    {
      var doc := docs[k];
      if PastValidity(doc.state, doc.validityDate, today) {
        doc.state := Expired;
        expired := expired + [doc];
      }
      assert docs[..k + 1] == docs[..k] + [doc];
      k := k + 1;
    }
    assert docs[..k] == docs;
  }
}
