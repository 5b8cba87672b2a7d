/**
 * The `Move` object: built field by field from a catalogue record, its three
 * effect tables updated in place by `AddSecondary`.
 */
module Moves {
  import opened Wrappers
  import opened Text
  import opened MoveNames
  import opened MoveEffects

  class Move {
    var name: string
    var accuracy: int
    var basePower: int
    var category: string
    var maxPp: int
    var priority: int
    var flags: map<string, int>
    var boosts: BoostTable
    var autoBoosts: BoostTable
    var secondaries: map<string, int>
    var target: string
    var moveType: string

    function Tables(): EffectTables
      reads this
    {
      EffectTables(boosts, autoBoosts, secondaries)
    }

    function Data(): MoveData
      reads this
    {
      MoveData(name, accuracy, basePower, category, maxPp, priority, flags, Tables(), target, moveType)
    }

    /** The scalar fields, unchanged by the effect updates. */
    function Scalars(): (string, int, int, string, int, int, map<string, int>, string, string)
      reads this
    {
      (name, accuracy, basePower, category, maxPp, priority, flags, target, moveType)
    }

    /** The scalar copies and the initial tables; `target` and `type` are set last. */
    constructor (name: string, accuracy: int, basePower: int, category: string,
                 maxPp: int, priority: int, flags: map<string, int>)
      ensures this.name == name && this.accuracy == accuracy && this.basePower == basePower
      ensures this.category == category && this.maxPp == maxPp && this.priority == priority
      ensures this.flags == flags && target == "" && moveType == ""
      ensures Tables() == InitialTables()
    {
      this.name := name;
      this.accuracy := accuracy;
      this.basePower := basePower;
      this.category := category;
      this.maxPp := maxPp;
      this.priority := priority;
      this.flags := flags;
      boosts := InitialTable();
      autoBoosts := InitialTable();
      secondaries := map[];
      target := "";
      moveType := "";
    }

    /**
     * `table[stat] = (val, chance)` for each stat of `b`, on `auto_boosts`
     * when `onSelf` and on `boosts` otherwise; the first write reads
     * `chance` and raises when it is absent.
     */
    method WriteBoosts(b: map<string, int>, chance: Option<int>, onSelf: bool) returns (outcome: Outcome<MoveError>)
      modifies this
      ensures Scalars() == old(Scalars()) && secondaries == old(secondaries)
      ensures b != map[] && chance.None? ==> outcome == Fail(MissingField("chance")) && Tables() == old(Tables())
      ensures b == map[] ==> outcome == Pass && Tables() == old(Tables())
      ensures b != map[] && chance.Some? ==> outcome == Pass
      ensures b != map[] && chance.Some? && onSelf ==>
        boosts == old(boosts) && autoBoosts == Overwrite(old(autoBoosts), b, chance.value)
      ensures b != map[] && chance.Some? && !onSelf ==>
        autoBoosts == old(autoBoosts) && boosts == Overwrite(old(boosts), b, chance.value)
    {
      var c := if chance.Some? then chance.value else 0;
      var todo := b.Keys;
      assert b - todo == map[];
      assert Overwrite(old(boosts), map[], c) == old(boosts);
      assert Overwrite(old(autoBoosts), map[], c) == old(autoBoosts);
      while todo != {}
        invariant todo <= b.Keys
        invariant Scalars() == old(Scalars()) && secondaries == old(secondaries)
        invariant todo != b.Keys ==> chance.Some?
        invariant onSelf ==> boosts == old(boosts) && autoBoosts == Overwrite(old(autoBoosts), b - todo, c)
        invariant !onSelf ==> autoBoosts == old(autoBoosts) && boosts == Overwrite(old(boosts), b - todo, c)
        decreases todo
      {
        var stat :| stat in todo;
        if chance.None? {
          return Fail(MissingField("chance"));
        }
        if onSelf {
          autoBoosts := autoBoosts[stat := (b[stat], chance.value)];
        } else {
          boosts := boosts[stat := (b[stat], chance.value)];
        }
        OverwriteStep(old(boosts), b, todo, stat, c);
        OverwriteStep(old(autoBoosts), b, todo, stat, c);
        todo := todo - {stat};
      }
      assert b - todo == b;
      outcome := Pass;
    }

    /** `secondaries[s] = chance` when `s` is a known status; an unknown one is only reported. */
    method RecordSecondary(s: string, chance: Option<int>) returns (outcome: Outcome<MoveError>)
      modifies this
      ensures Scalars() == old(Scalars()) && boosts == old(boosts) && autoBoosts == old(autoBoosts)
      ensures s !in Secondaries ==> outcome == Pass && secondaries == old(secondaries)
      ensures s in Secondaries && chance.None? ==> outcome == Fail(MissingField("chance")) && secondaries == old(secondaries)
      ensures s in Secondaries && chance.Some? ==> outcome == Pass && secondaries == old(secondaries)[s := chance.value]
    {
      if s !in Secondaries {
        outcome := Pass;
      } else if chance.None? {
        outcome := Fail(MissingField("chance"));
      } else {
        secondaries := secondaries[s := chance.value];
        outcome := Pass;
      }
    }

    /**
     * `add_secondary`: sorts one effect record into the tables, in the order
     * `boosts`, `status`, `volatileStatus`, `self`, anything else. `rest` is
     * the record as the call leaves it (the source pops `chance` from an
     * unrecognised record, which is the catalogue's own dictionary).
     */
    method AddSecondary(e: RawEffect) returns (outcome: Outcome<MoveError>, rest: RawEffect)
      modifies this
      ensures Scalars() == old(Scalars())
      ensures var r := ApplyEffect(old(Tables()), e);
        && (r.Ok? ==> outcome == Pass && Tables() == r.value)
        && (r.Err? ==> outcome == Fail(r.error) && Tables() == old(Tables()))
      ensures rest == LeftBehind(e)
    {
      rest := e;
      if e.boosts.Some? {
        outcome := WriteBoosts(e.boosts.value, e.chance, false);
      } else if e.status.Some? {
        outcome := RecordSecondary(e.status.value, e.chance);
      } else if e.volatileStatus.Some? {
        outcome := RecordSecondary(e.volatileStatus.value, e.chance);
      } else if e.selfEffect.Some? {
        if e.selfEffect.value.boosts.Some? {
          outcome := WriteBoosts(e.selfEffect.value.boosts.value, e.chance, true);
        } else {
          outcome := Pass;
        }
      } else if e.chance.None? {
        outcome := Fail(MissingField("chance"));
      } else {
        rest := e.(chance := None);
        outcome := Pass;
      }
    }

    /**
     * `add_secondary` on each element of `es` in turn, stopping at the
     * first `KeyError`: the tables end as `ApplyAll` says.
     */
    method AddSecondaries(es: seq<RawEffect>) returns (outcome: Outcome<MoveError>)
      modifies this
      ensures Scalars() == old(Scalars())
      ensures outcome.Pass? <==> ApplyAll(old(Tables()), es).Ok?
      ensures outcome.Pass? ==> Tables() == ApplyAll(old(Tables()), es).value
      ensures outcome.Fail? ==> outcome.error == ApplyAll(old(Tables()), es).error
    {
      ghost var start := Tables();
      for i := 0 to |es|
        invariant Scalars() == old(Scalars())
        invariant ApplyAll(start, es[..i]) == Ok(Tables())
      {
        AppliedInListOrder(start, es[..i], es[i]);
        assert es[..i + 1] == es[..i] + [es[i]];
        var rest;
        outcome, rest := AddSecondary(es[i]);
        if outcome.Fail? {
          ApplyAllConcat(start, es[..i + 1], es[i + 1..]);
          assert es == es[..i + 1] + es[i + 1..];
          return;
        }
      }
      assert es[..|es|] == es;
      outcome := Pass;
    }

    /**
     * `Move(raw)`: the checks and copies of `__init__` in source order. On
     * success the new move's state is `Resolution(catalogue, raw)`; the
     * catalogue is an immutable value, so the records `AddSecondary` leaves
     * behind are dropped rather than written back.
     */
    static method Resolve(catalogue: map<string, RawRecord>, raw: string) returns (r: Result<Move, MoveError>)
      ensures r.Ok? <==> Resolution(catalogue, raw).Ok?
      ensures r.Err? ==> r.error == Resolution(catalogue, raw).error
      ensures r.Ok? ==> fresh(r.value) && r.value.Data() == Resolution(catalogue, raw).value
    {
      var name := Normalize(raw);
      if name !in catalogue && StartsWith(name, "z") {
        return Err(ZMove);
      }
      if name !in catalogue {
        return Err(UnknownMove(name));
      }
      var rec := catalogue[name];
      if rec.accuracy.None? { return Err(MissingField("accuracy")); }
      if rec.basePower.None? { return Err(MissingField("basePower")); }
      if rec.category.None? { return Err(MissingField("category")); }
      if rec.pp.None? { return Err(MissingField("pp")); }
      if rec.priority.None? { return Err(MissingField("priority")); }
      if rec.flags.None? { return Err(MissingField("flags")); }
      var m := new Move(name, AccuracyOf(rec.accuracy.value), rec.basePower.value, rec.category.value,
                        rec.pp.value, rec.priority.value, rec.flags.value);
      ghost var effects := AppliedEffects(rec);
      if rec.secondary.Some? {
        if rec.secondary.value.Some? && !rec.secondary.value.value.IsEmpty() {
          var outcome, _ := m.AddSecondary(rec.secondary.value.value);
          if outcome.Fail? {
            return Err(outcome.error);
          }
        }
      } else if rec.secondaries.Some? {
        var outcome := m.AddSecondaries(rec.secondaries.value);
        if outcome.Fail? {
          return Err(outcome.error);
        }
      }
      assert ApplyAll(InitialTables(), effects) == Ok(m.Tables());
      if rec.target.None? { return Err(MissingField("target")); }
      m.target := rec.target.value;
      if rec.moveType.None? { return Err(MissingField("type")); }
      m.moveType := Lower(rec.moveType.value);
      return Ok(m);
    }
  }

  /** Resolving one name twice against the catalogue gives two moves with equal state. */
  method ResolveTwice(catalogue: map<string, RawRecord>, raw: string) returns (first: Result<Move, MoveError>, second: Result<Move, MoveError>)
    ensures first.Ok? <==> second.Ok?
    ensures first.Err? ==> second.Err? && first.error == second.error
    ensures first.Ok? ==> first.value != second.value && first.value.Data() == second.value.Data()
  {
    first := Move.Resolve(catalogue, raw);
    second := Move.Resolve(catalogue, raw);
  }
}
