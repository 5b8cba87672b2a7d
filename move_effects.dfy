/**
 * The raw catalogue records a move is built from, and what building a move
 * from them means: `Move.__init__` after the name is normalised, and
 * `Move.add_secondary`, as functions on values.
 */
module MoveEffects {
  import opened Wrappers
  import opened Text
  import opened MoveNames

  /** A key mapped to its (magnitude, chance-percent) pair. */
  type BoostTable = map<string, (int, int)>

  /** `Move.SECONDARIES`: the status names a secondary effect may record. */
  const Secondaries: set<string> := {"par", "brn", "frz", "psn", "slp", "flinch", "confusion"}

  /** The six keys `boosts` and `auto_boosts` start with. */
  const InitialKeys: set<string> := {"tox", "psn", "slp", "par", "brn", "frz"}

  /**
   * Why a move cannot be built: a Z-move missing from the catalogue
   * (`ZMoveException`), or a `KeyError` on the catalogue or on a record.
   */
  datatype MoveError = ZMove | UnknownMove(name: string) | MissingField(field: string)

  /** The catalogue's `accuracy`: a boolean (`true` for moves that never miss) or a number. */
  datatype RawAccuracy = AlwaysHits(flag: bool) | Percent(value: int)

  /** The nested `self` record of an effect. */
  datatype SelfEffect = SelfEffect(boosts: Option<map<string, int>>)

  /**
   * One secondary-effect record; `None` is an absent key, `otherKeys` names
   * the keys the classifier does not look at.
   */
  datatype RawEffect = RawEffect(
    chance: Option<int>,
    boosts: Option<map<string, int>>,
    status: Option<string>,
    volatileStatus: Option<string>,
    selfEffect: Option<SelfEffect>,
    otherKeys: set<string>)
  {
    /** The record has no key at all, so Python reads it as false. */
    predicate IsEmpty() {
      chance.None? && boosts.None? && status.None? && volatileStatus.None?
      && selfEffect.None? && otherKeys == {}
    }

    /** None of `boosts`, `status`, `volatileStatus` and `self` is present. */
    predicate IsUnrecognised() {
      boosts.None? && status.None? && volatileStatus.None? && selfEffect.None?
    }

    /** `otherKeys` names none of the keys held in the fields above. */
    predicate WellFormed() {
      otherKeys !! {"chance", "boosts", "status", "volatileStatus", "self"}
    }
  }

  /**
   * A catalogue record. `secondary` is `Some(None)` when the key holds a
   * null or false value.
   */
  datatype RawRecord = RawRecord(
    accuracy: Option<RawAccuracy>,
    basePower: Option<int>,
    category: Option<string>,
    pp: Option<int>,
    priority: Option<int>,
    flags: Option<map<string, int>>,
    secondary: Option<Option<RawEffect>>,
    secondaries: Option<seq<RawEffect>>,
    target: Option<string>,
    moveType: Option<string>)

  /** The three tables secondary effects are sorted into. */
  datatype EffectTables = EffectTables(
    boosts: BoostTable,
    autoBoosts: BoostTable,
    secondaries: map<string, int>)

  /** The state of a fully built `Move`. */
  datatype MoveData = MoveData(
    name: string,
    accuracy: int,
    basePower: int,
    category: string,
    maxPp: int,
    priority: int,
    flags: map<string, int>,
    tables: EffectTables,
    target: string,
    moveType: string)

  /** The table `boosts` and `auto_boosts` start as. */
  function InitialTable(): (t: BoostTable)
    ensures t.Keys == InitialKeys
    ensures forall k :: k in t ==> t[k] == (0, 0)
  {
    map["tox" := (0, 0), "psn" := (0, 0), "slp" := (0, 0),
        "par" := (0, 0), "brn" := (0, 0), "frz" := (0, 0)]
  }

  function InitialTables(): EffectTables {
    EffectTables(InitialTable(), InitialTable(), map[])
  }

  /** `t` after `t[stat] = (val, chance)` for every `stat, val` of `b`. */
  function Overwrite(t: BoostTable, b: map<string, int>, chance: int): (r: BoostTable)
    ensures r.Keys == t.Keys + b.Keys
    ensures forall k :: k in b ==> r[k] == (b[k], chance)
    ensures forall k :: k in t && k !in b ==> r[k] == t[k]
  {
    map k | k in t.Keys + b.Keys :: if k in b then (b[k], chance) else t[k]
  }

  /** Writing one more stat of `b` extends the overwrite by that stat. */
  lemma OverwriteStep(t: BoostTable, b: map<string, int>, todo: set<string>, stat: string, chance: int)
    requires stat in todo && todo <= b.Keys
    ensures Overwrite(t, b - (todo - {stat}), chance) == Overwrite(t, b - todo, chance)[stat := (b[stat], chance)]
  {
    assert b - (todo - {stat}) == (b - todo)[stat := b[stat]];
  }

  /** The accuracy `__init__` stores: 100 for a boolean (sure-hit) entry, the raw number otherwise. */
  function AccuracyOf(a: RawAccuracy): (r: int)
    ensures a.AlwaysHits? ==> r == 100
    ensures a.Percent? ==> r == a.value
  {
    match a
    case AlwaysHits(_) => 100
    case Percent(n) => n
  }

  /** A `status` or `volatileStatus` effect naming `s`. */
  function RecordStatus(fx: EffectTables, s: string, chance: Option<int>): (r: Result<EffectTables, MoveError>)
    ensures r.Err? <==> s in Secondaries && chance.None?
    ensures r.Err? ==> r.error == MissingField("chance")
    ensures r.Ok? ==> r.value.boosts == fx.boosts && r.value.autoBoosts == fx.autoBoosts
    ensures r.Ok? && s in Secondaries ==> r.value.secondaries == fx.secondaries[s := chance.value]
    ensures s !in Secondaries ==> r == Ok(fx)
  {
    if s !in Secondaries then Ok(fx)
    else if chance.None? then Err(MissingField("chance"))
    else Ok(fx.(secondaries := fx.secondaries[s := chance.value]))
  }

  /**
   * Whether `add_secondary` reads `chance` for `e`: when a branch writes
   * something (a non-empty `boosts`, a known `status` or `volatileStatus`, a
   * non-empty `self.boosts`), and when the record is unrecognised and
   * `chance` is popped.
   */
  predicate ReadsChance(e: RawEffect) {
    if e.boosts.Some? then e.boosts.value != map[]
    else if e.status.Some? then e.status.value in Secondaries
    else if e.volatileStatus.Some? then e.volatileStatus.value in Secondaries
    else if e.selfEffect.Some? then e.selfEffect.value.boosts.Some? && e.selfEffect.value.boosts.value != map[]
    else true
  }

  /**
   * What `add_secondary` does to the three tables, or the `KeyError` it
   * raises. A `chance` is read only when something is written, or when the
   * record is unrecognised and `chance` is popped.
   */
  function ApplyEffect(fx: EffectTables, e: RawEffect): (r: Result<EffectTables, MoveError>)
    ensures r.Err? <==> e.chance.None? && ReadsChance(e)
    ensures r.Err? ==> r.error == MissingField("chance")
    ensures r.Ok? ==> fx.boosts.Keys <= r.value.boosts.Keys
    ensures r.Ok? ==> fx.autoBoosts.Keys <= r.value.autoBoosts.Keys
  {
    if e.boosts.Some? then
      var b := e.boosts.value;
      if b == map[] then Ok(fx)
      else if e.chance.None? then Err(MissingField("chance"))
      else Ok(fx.(boosts := Overwrite(fx.boosts, b, e.chance.value)))
    else if e.status.Some? then
      RecordStatus(fx, e.status.value, e.chance)
    else if e.volatileStatus.Some? then
      RecordStatus(fx, e.volatileStatus.value, e.chance)
    else if e.selfEffect.Some? then
      if e.selfEffect.value.boosts.None? then Ok(fx)
      else
        var b := e.selfEffect.value.boosts.value;
        if b == map[] then Ok(fx)
        else if e.chance.None? then Err(MissingField("chance"))
        else Ok(fx.(autoBoosts := Overwrite(fx.autoBoosts, b, e.chance.value)))
    else if e.chance.None? then Err(MissingField("chance"))
    else Ok(fx)
  }

  /** The record as `add_secondary` leaves it: an unrecognised one loses its `chance`. */
  function LeftBehind(e: RawEffect): (r: RawEffect)
    ensures r.IsUnrecognised() <==> e.IsUnrecognised()
    ensures e.IsUnrecognised() ==> r == e.(chance := None)
    ensures !e.IsUnrecognised() ==> r == e
    ensures e.WellFormed() ==> r.WellFormed()
  {
    if e.IsUnrecognised() && e.chance.Some? then e.(chance := None) else e
  }

  /** The effects applied in list order, stopping at the first error. */
  function ApplyAll(fx: EffectTables, es: seq<RawEffect>): (r: Result<EffectTables, MoveError>)
    ensures r.Err? ==> r.error == MissingField("chance")
    ensures r.Ok? ==> fx.boosts.Keys <= r.value.boosts.Keys
    ensures r.Ok? ==> fx.autoBoosts.Keys <= r.value.autoBoosts.Keys
    decreases |es|
  {
    if es == [] then Ok(fx)
    else
      match ApplyEffect(fx, es[0])
      case Err(err) => Err(err)
      case Ok(next) => ApplyAll(next, es[1..])
  }

  /**
   * The effects a record contributes: a truthy `secondary`, or else every
   * element of `secondaries`.
   */
  function AppliedEffects(rec: RawRecord): (r: seq<RawEffect>)
    ensures rec.secondary.Some? ==> |r| <= 1
    ensures rec.secondary.Some? && rec.secondary.value.Some? && !rec.secondary.value.value.IsEmpty() ==>
      r == [rec.secondary.value.value]
    ensures rec.secondary.Some? && r != [] ==>
      rec.secondary.value.Some? && r == [rec.secondary.value.value] && !r[0].IsEmpty()
    ensures rec.secondary.None? && rec.secondaries.Some? ==> r == rec.secondaries.value
    ensures rec.secondary.None? && rec.secondaries.None? ==> r == []
  {
    match rec.secondary
    case Some(s) => if s.Some? && !s.value.IsEmpty() then [s.value] else []
    case None => if rec.secondaries.Some? then rec.secondaries.value else []
  }

  /** A move built from the record stored under `name`, in the order `__init__` reads its keys. */
  function Build(name: string, rec: RawRecord): (r: Result<MoveData, MoveError>)
    ensures r.Ok? <==> HasAllFields(rec) && ApplyAll(InitialTables(), AppliedEffects(rec)).Ok?
    ensures r.Err? ==> r.error.MissingField?
    ensures r.Ok? ==> r.value.name == name && r.value.accuracy == AccuracyOf(rec.accuracy.value)
    ensures r.Ok? ==> r.value.tables == ApplyAll(InitialTables(), AppliedEffects(rec)).value
    ensures r.Ok? ==> r.value.moveType == Lower(rec.moveType.value)
    ensures r.Ok? ==> r.value.basePower == rec.basePower.value && r.value.category == rec.category.value
    ensures r.Ok? ==> r.value.maxPp == rec.pp.value && r.value.priority == rec.priority.value
    ensures r.Ok? ==> r.value.flags == rec.flags.value && r.value.target == rec.target.value
  {
    if rec.accuracy.None? then Err(MissingField("accuracy"))
    else if rec.basePower.None? then Err(MissingField("basePower"))
    else if rec.category.None? then Err(MissingField("category"))
    else if rec.pp.None? then Err(MissingField("pp"))
    else if rec.priority.None? then Err(MissingField("priority"))
    else if rec.flags.None? then Err(MissingField("flags"))
    else
      match ApplyAll(InitialTables(), AppliedEffects(rec))
      case Err(err) => Err(err)
      case Ok(fx) =>
        if rec.target.None? then Err(MissingField("target"))
        else if rec.moveType.None? then Err(MissingField("type"))
        else Ok(MoveData(name, AccuracyOf(rec.accuracy.value), rec.basePower.value,
                         rec.category.value, rec.pp.value, rec.priority.value,
                         rec.flags.value, fx, rec.target.value, Lower(rec.moveType.value)))
  }

  /** Every key `__init__` reads unconditionally is present. */
  predicate HasAllFields(rec: RawRecord) {
    rec.accuracy.Some? && rec.basePower.Some? && rec.category.Some? && rec.pp.Some?
    && rec.priority.Some? && rec.flags.Some? && rec.target.Some? && rec.moveType.Some?
  }

  /** `Move(raw)`: normalise, reject an unknown Z-move, look up, build. */
  function Resolution(catalogue: map<string, RawRecord>, raw: string): (r: Result<MoveData, MoveError>)
    ensures r.Ok? ==> Normalize(raw) in catalogue && r.value.name == Normalize(raw)
    ensures Normalize(raw) !in catalogue ==> r.Err? && (r.error == ZMove || r.error == UnknownMove(Normalize(raw)))
  {
    var name := Normalize(raw);
    if name !in catalogue then
      if StartsWith(name, "z") then Err(ZMove) else Err(UnknownMove(name))
    else Build(name, catalogue[name])
  }

  // ---- What resolution promises -------------------------------------------

  /**
   * A name missing from the catalogue fails: with `ZMove` when it starts with
   * `z`, with the lookup's `KeyError` otherwise. A present name never fails
   * on the lookup.
   */
  lemma MissingNames(catalogue: map<string, RawRecord>, raw: string)
    ensures var name := Normalize(raw);
      && (name !in catalogue && StartsWith(name, "z") ==> Resolution(catalogue, raw) == Err(ZMove))
      && (name !in catalogue && !StartsWith(name, "z") ==> Resolution(catalogue, raw) == Err(UnknownMove(name)))
      && (name in catalogue ==> Resolution(catalogue, raw).Ok? || Resolution(catalogue, raw).error.MissingField?)
  {
    var name := Normalize(raw);
    if name in catalogue {
      var rec := catalogue[name];
      if rec.accuracy.Some? && rec.basePower.Some? && rec.category.Some? && rec.pp.Some?
         && rec.priority.Some? && rec.flags.Some? {
        var r := ApplyAll(InitialTables(), AppliedEffects(rec));
        assert r.Err? ==> r.error.MissingField?;
      }
    }
  }

  /** A resolved move's accuracy is 100 for a boolean raw accuracy, and the raw number otherwise. */
  lemma ResolvedAccuracy(catalogue: map<string, RawRecord>, raw: string)
    requires Resolution(catalogue, raw).Ok?
    ensures var rec := catalogue[Normalize(raw)];
      && rec.accuracy.Some?
      && (rec.accuracy.value.AlwaysHits? ==> Resolution(catalogue, raw).value.accuracy == 100)
      && (rec.accuracy.value.Percent? ==> Resolution(catalogue, raw).value.accuracy == rec.accuracy.value.value)
  {
  }

  /**
   * With no effect to apply, the built move holds the initial tables: the six
   * keys at `(0, 0)` in both boost tables and no secondaries. Its type is the
   * raw type lowercased and its name the catalogue key.
   */
  lemma NoEffectsKeepsInitialTables(name: string, rec: RawRecord)
    requires AppliedEffects(rec) == []
    requires Build(name, rec).Ok?
    ensures var m := Build(name, rec).value;
      && m.tables.boosts.Keys == InitialKeys && m.tables.autoBoosts.Keys == InitialKeys
      && (forall k :: k in InitialKeys ==> m.tables.boosts[k] == (0, 0) && m.tables.autoBoosts[k] == (0, 0))
      && m.tables.secondaries == map[]
      && m.moveType == Lower(rec.moveType.value)
      && m.name == name
  {
  }

  /**
   * A single `secondary` carrying a known status (say `brn` at chance 10)
   * is applied: the move records exactly that status at that chance, and
   * both boost tables stay at their initial six zero entries.
   */
  lemma SingleStatusSecondary(name: string, rec: RawRecord, s: string, chance: int)
    requires HasAllFields(rec) && s in Secondaries
    requires rec.secondary == Some(Some(RawEffect(Some(chance), None, Some(s), None, None, {})))
    ensures Build(name, rec).Ok?
    ensures Build(name, rec).value.tables == EffectTables(InitialTable(), InitialTable(), map[s := chance])
  {
    var e := rec.secondary.value.value;
    var after := EffectTables(InitialTable(), InitialTable(), map[s := chance]);
    assert AppliedEffects(rec) == [e];
    assert ApplyEffect(InitialTables(), e) == Ok(after);
    assert ApplyAll(InitialTables(), [e]) == ApplyAll(after, []);
  }

  /**
   * A present `secondary` key wins over `secondaries`, whatever the latter
   * holds; a null, false or empty `secondary` adds nothing.
   */
  lemma SecondaryTakesPrecedence(name: string, rec: RawRecord, other: Option<seq<RawEffect>>)
    requires rec.secondary.Some?
    ensures Build(name, rec) == Build(name, rec.(secondaries := other))
    ensures rec.secondary.value.None? || rec.secondary.value.value.IsEmpty() ==> AppliedEffects(rec) == []
  {
  }

  /** Applying a list is applying its first part, then the rest from where that left off. */
  lemma {:induction false} ApplyAllConcat(fx: EffectTables, a: seq<RawEffect>, b: seq<RawEffect>)
    ensures ApplyAll(fx, a + b) ==
      match ApplyAll(fx, a)
      case Err(err) => Err(err)
      case Ok(mid) => ApplyAll(mid, b)
    decreases |a|
  {
    if a == [] {
      assert a + b == b;
    } else {
      assert (a + b)[0] == a[0] && (a + b)[1..] == a[1..] + b;
      match ApplyEffect(fx, a[0])
      case Err(_) =>
      case Ok(next) => ApplyAllConcat(next, a[1..], b);
    }
  }

  /** Appending one effect to a list applies it last, to the tables the list produced. */
  lemma AppliedInListOrder(fx: EffectTables, es: seq<RawEffect>, e: RawEffect)
    ensures ApplyAll(fx, es + [e]) ==
      match ApplyAll(fx, es)
      case Err(err) => Err(err)
      case Ok(mid) => ApplyEffect(mid, e)
  {
    ApplyAllConcat(fx, es, [e]);
    match ApplyAll(fx, es)
    case Err(_) =>
    case Ok(mid) =>
      match ApplyEffect(mid, e)
      case Err(_) =>
      case Ok(_) =>
  }

  /** The six initial keys survive every resolution, in both boost tables. */
  lemma ResolvedTablesKeepInitialKeys(catalogue: map<string, RawRecord>, raw: string)
    requires Resolution(catalogue, raw).Ok?
    ensures InitialKeys <= Resolution(catalogue, raw).value.tables.boosts.Keys
    ensures InitialKeys <= Resolution(catalogue, raw).value.tables.autoBoosts.Keys
  {
  }

  // ---- What one effect does -----------------------------------------------

  /**
   * A `boosts` effect with a chance writes `(val, chance)` for every listed
   * stat, including stats beyond the initial six, and touches nothing else.
   */
  lemma BoostEffect(fx: EffectTables, e: RawEffect)
    requires e.boosts.Some? && e.chance.Some?
    ensures ApplyEffect(fx, e).Ok?
    ensures var r := ApplyEffect(fx, e).value;
      && r.boosts.Keys == fx.boosts.Keys + e.boosts.value.Keys
      && (forall k :: k in e.boosts.value ==> r.boosts[k] == (e.boosts.value[k], e.chance.value))
      && (forall k :: k in fx.boosts && k !in e.boosts.value ==> r.boosts[k] == fx.boosts[k])
      && r.autoBoosts == fx.autoBoosts && r.secondaries == fx.secondaries
  {
  }

  /**
   * Without `boosts`, a `status` is checked before any `volatileStatus`: a
   * known status records its chance, an unknown one changes nothing, and the
   * `volatileStatus` key is never looked at.
   */
  lemma StatusEffect(fx: EffectTables, e: RawEffect, v: Option<string>)
    requires e.boosts.None? && e.status.Some?
    ensures ApplyEffect(fx, e) == ApplyEffect(fx, e.(volatileStatus := v))
    ensures e.status.value !in Secondaries ==> ApplyEffect(fx, e) == Ok(fx)
    ensures e.status.value in Secondaries && e.chance.Some? ==>
      ApplyEffect(fx, e) == Ok(fx.(secondaries := fx.secondaries[e.status.value := e.chance.value]))
  {
  }

  /** A `volatileStatus` (without `boosts` or `status`) is recorded as a status is. */
  lemma VolatileStatusEffect(fx: EffectTables, e: RawEffect)
    requires e.boosts.None? && e.status.None? && e.volatileStatus.Some?
    ensures e.volatileStatus.value !in Secondaries ==> ApplyEffect(fx, e) == Ok(fx)
    ensures e.volatileStatus.value in Secondaries && e.chance.Some? ==>
      ApplyEffect(fx, e) == Ok(fx.(secondaries := fx.secondaries[e.volatileStatus.value := e.chance.value]))
  {
  }

  /**
   * A `self` record with boosts writes them to `auto_boosts` with the outer
   * chance; a `self` record without boosts changes nothing.
   */
  lemma SelfEffectBoosts(fx: EffectTables, e: RawEffect)
    requires e.boosts.None? && e.status.None? && e.volatileStatus.None? && e.selfEffect.Some?
    ensures e.selfEffect.value.boosts.None? ==> ApplyEffect(fx, e) == Ok(fx)
    ensures e.selfEffect.value.boosts.Some? && e.chance.Some? ==>
      ApplyEffect(fx, e) == Ok(fx.(autoBoosts := Overwrite(fx.autoBoosts, e.selfEffect.value.boosts.value, e.chance.value)))
  {
    if e.selfEffect.value.boosts == Some(map[]) && e.chance.Some? {
      assert Overwrite(fx.autoBoosts, map[], e.chance.value) == fx.autoBoosts;
    }
  }

  /**
   * An unrecognised record leaves all three tables as they were and loses
   * its `chance`; without a `chance` the pop raises.
   */
  lemma UnrecognisedEffect(fx: EffectTables, e: RawEffect)
    requires e.IsUnrecognised()
    ensures e.chance.Some? ==> ApplyEffect(fx, e) == Ok(fx) && LeftBehind(e) == e.(chance := None)
    ensures e.chance.None? ==> ApplyEffect(fx, e) == Err(MissingField("chance"))
  {
  }

  // ---- The record left behind in the shared catalogue ---------------------

  function LeftBehindAll(es: seq<RawEffect>): (r: seq<RawEffect>)
    ensures |r| == |es|
    ensures forall i :: 0 <= i < |es| ==> r[i] == LeftBehind(es[i])
  {
    seq(|es|, i requires 0 <= i < |es| => LeftBehind(es[i]))
  }

  /**
   * The catalogue record after the source has resolved it once with
   * success: the effect dictionaries it applied are the catalogue's own,
   * and `add_secondary` popped `chance` from each unrecognised one. (A
   * resolution that fails pops only from the effects it reached.)
   */
  function LeftBehindRecord(rec: RawRecord): (r: RawRecord)
    ensures r.(secondary := rec.secondary, secondaries := rec.secondaries) == rec
    ensures |AppliedEffects(rec)| == 1 && rec.secondary.Some? ==>
      r.secondary == Some(Some(LeftBehind(AppliedEffects(rec)[0])))
    ensures rec.secondary.None? ==> AppliedEffects(r) == LeftBehindAll(AppliedEffects(rec))
    ensures rec.secondary.Some? ==> r.secondaries == rec.secondaries
    ensures AppliedEffects(rec) == [] ==> r == rec
  {
    match rec.secondary
    case Some(s) =>
      if s.Some? && !s.value.IsEmpty() then rec.(secondary := Some(Some(LeftBehind(s.value)))) else rec
    case None =>
      if rec.secondaries.Some? then rec.(secondaries := Some(LeftBehindAll(rec.secondaries.value))) else rec
  }

  /** Re-applying a list after the pops fails at its first unrecognised effect. */
  lemma {:induction false} ReapplyAfterPopFails(fx: EffectTables, es: seq<RawEffect>, i: int)
    requires ApplyAll(fx, es).Ok?
    requires 0 <= i < |es| && es[i].IsUnrecognised()
    ensures ApplyAll(fx, LeftBehindAll(es)) == Err(MissingField("chance"))
    decreases |es|
  {
    var popped := LeftBehindAll(es);
    if es[0].IsUnrecognised() {
      assert popped[0].IsUnrecognised() && popped[0].chance.None?;
    } else {
      assert popped[0] == es[0];
      assert LeftBehindAll(es[1..]) == popped[1..];
      ReapplyAfterPopFails(ApplyEffect(fx, es[0]).value, es[1..], i - 1);
    }
  }

  /** Some effect the record applies is unrecognised and is not emptied by the pop. */
  predicate LeavesStaleEffect(rec: RawRecord) {
    match rec.secondary
    case Some(s) =>
      s.Some? && s.value.IsUnrecognised() && s.value.otherKeys != {}
    case None =>
      rec.secondaries.Some?
      && exists i :: 0 <= i < |rec.secondaries.value| && rec.secondaries.value[i].IsUnrecognised()
  }

  /**
   * As written, a successful resolution can make the next one fail: once the
   * pop has removed `chance` from a stale effect, building from the record
   * left behind raises `KeyError('chance')`.
   */
  lemma ReresolveFailsAsWritten(name: string, rec: RawRecord)
    requires Build(name, rec).Ok?
    requires LeavesStaleEffect(rec)
    ensures Build(name, LeftBehindRecord(rec)) == Err(MissingField("chance"))
  {
    var left := LeftBehindRecord(rec);
    if rec.secondary.Some? {
      var e := rec.secondary.value.value;
      assert AppliedEffects(left) == [LeftBehind(e)];
    } else {
      var es := rec.secondaries.value;
      var i :| 0 <= i < |es| && es[i].IsUnrecognised();
      ReapplyAfterPopFails(InitialTables(), es, i);
    }
  }
}
