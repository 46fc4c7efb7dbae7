/**
 * The player of the narrative game (Lab3/client/player.py): numeric vitals,
 * an ordered inventory, the clamped stat update, and the save-file snapshot
 * with its backward-compatible `stamina` default.
 */
module Players {
  import opened Wrappers
  import opened Json

  /** The player's numeric attributes, the closed set a stat name may denote. */
  datatype Stat = Hp | Hunger | Thirst | Money | Stamina

  /** The attribute name of each stat, as the save file and the story spell it. */
  function StatName(s: Stat): string {
    match s
    case Hp => "hp"
    case Hunger => "hunger"
    case Thirst => "thirst"
    case Money => "money"
    case Stamina => "stamina"
  }

  /** The stat a name denotes, if any. */
  function StatNamed(name: string): (r: Option<Stat>)
    ensures r.Some? ==> StatName(r.value) == name
    ensures r.None? ==> forall s: Stat :: StatName(s) != name
  {
    if name == "hp" then Some(Hp)
    else if name == "hunger" then Some(Hunger)
    else if name == "thirst" then Some(Thirst)
    else if name == "money" then Some(Money)
    else if name == "stamina" then Some(Stamina)
    else None
  }

  /** The value of a player: what its attributes hold at one moment. */
  datatype Vitals = Vitals(hp: int, hunger: int, thirst: int, money: int, inventory: seq<Json>, stamina: int)
  {
    function Get(s: Stat): int {
      match s
      case Hp => hp
      case Hunger => hunger
      case Thirst => thirst
      case Money => money
      case Stamina => stamina
    }

    /** `setattr(player, s, x)`: stat `s` becomes `x`, nothing else changes. */
    function With(s: Stat, x: int): (r: Vitals)
      ensures r.Get(s) == x
      ensures forall t :: t != s ==> r.Get(t) == Get(t)
      ensures r.inventory == inventory
    {
      match s
      case Hp => this.(hp := x)
      case Hunger => this.(hunger := x)
      case Thirst => this.(thirst := x)
      case Money => this.(money := x)
      case Stamina => this.(stamina := x)
    }
  }

  /** The vitals of `Player()` called with no arguments. */
  const FreshVitals := Vitals(100, 50, 50, 20, [], 100)

  function Max(a: int, b: int): int { if a < b then b else a }

  /** The vitals after `update_stat(stat, value)`: a known stat moves by `value` but never below zero. */
  function UpdatedStat(v: Vitals, stat: string, value: int): (r: Vitals)
    ensures match StatNamed(stat)
      case None => r == v
      case Some(s) =>
        && r.Get(s) >= 0
        && r.Get(s) == Max(0, v.Get(s) + value)
        && (v.Get(s) + value >= 0 ==> r.Get(s) == v.Get(s) + value)
        && (forall t :: t != s ==> r.Get(t) == v.Get(t))
        && r.inventory == v.inventory
  {
    match StatNamed(stat)
    case None => v
    case Some(s) => v.With(s, Max(0, v.Get(s) + value))
  }

  // ---------------------------------------------------------------------
  // The save-file snapshot: `json.dump(player.__dict__)` and `Player(**data)`
  // ---------------------------------------------------------------------

  /** A save file's contents: the player's attribute dictionary. */
  type Snapshot = map<string, Json>

  /** The attribute names of a player, which are the keyword parameters of its constructor. */
  const FieldNames: set<string> := {"hp", "hunger", "thirst", "money", "inventory", "stamina"}

  /** The stamina stored when a snapshot predates the stamina attribute. */
  const LegacyStamina := 100

  /** Why `Player(**data)` rejects a snapshot. */
  datatype LoadError =
    | UnexpectedFields(names: set<string>)  // a keyword the constructor does not take
    | BadField(name: string)                // a value this model cannot hold in that attribute

  /** The dictionary `save` writes: every attribute under its own name. */
  function SnapshotOf(v: Vitals): (m: Snapshot)
    ensures m.Keys == FieldNames
    ensures forall s :: m[StatName(s)] == JInt(v.Get(s))
    ensures m["inventory"] == JList(v.inventory)
  {
    map["hp" := JInt(v.hp), "hunger" := JInt(v.hunger), "thirst" := JInt(v.thirst),
        "money" := JInt(v.money), "inventory" := JList(v.inventory), "stamina" := JInt(v.stamina)]
  }

  /** The snapshot `load` hands to the constructor: a missing stamina is filled in. */
  function WithStaminaDefault(data: Snapshot): (d: Snapshot)
    ensures d.Keys == data.Keys + {"stamina"}
    ensures "stamina" in data ==> d["stamina"] == data["stamina"]
    ensures "stamina" !in data ==> d["stamina"] == JInt(LegacyStamina)
    ensures forall k :: k in data && k != "stamina" ==> d[k] == data[k]
  {
    if "stamina" !in data then data["stamina" := JInt(LegacyStamina)] else data
  }

  /** One numeric keyword argument: its value if given, else the constructor's default. */
  function StatArgument(d: Snapshot, s: Stat, default: int): Result<int, LoadError> {
    if StatName(s) !in d then Success(default)
    else match d[StatName(s)]
      case JInt(n) => Success(n)
      case _ => Failure(BadField(StatName(s)))
  }

  /** The inventory keyword argument after `inventory or []`. */
  function InventoryArgument(d: Snapshot): (r: Result<seq<Json>, LoadError>)
    ensures ("inventory" !in d || !Truthy(d["inventory"])) ==> r == Success([])
    ensures "inventory" in d && Truthy(d["inventory"]) && d["inventory"].JList? ==> r == Success(d["inventory"].elems)
    ensures "inventory" in d && Truthy(d["inventory"]) && !d["inventory"].JList? ==> r == Failure(BadField("inventory"))
  {
    if "inventory" !in d || !Truthy(d["inventory"]) then Success([])
    else match d["inventory"]
      case JList(xs) => Success(xs)
      case _ => Failure(BadField("inventory"))
  }

  /** Whether every value of a snapshot fits the attribute it names. */
  predicate WellTyped(d: Snapshot) {
    && (forall s :: StatName(s) in d ==> d[StatName(s)].JInt?)
    && ("inventory" in d && Truthy(d["inventory"]) ==> d["inventory"].JList?)
  }

  /** The vitals `Player.load` builds from a snapshot. */
  function FromSnapshot(data: Snapshot): (r: Result<Vitals, LoadError>)
    ensures r.Success? <==> data.Keys <= FieldNames && WellTyped(data)
    ensures r.Success? && "stamina" !in data ==> r.value.stamina == LegacyStamina
  {
    var d := WithStaminaDefault(data);
    if !(d.Keys <= FieldNames) then Failure(UnexpectedFields(d.Keys - FieldNames))
    else
      var hp :- StatArgument(d, Hp, 100);
      var hunger :- StatArgument(d, Hunger, 50);
      var thirst :- StatArgument(d, Thirst, 50);
      var money :- StatArgument(d, Money, 20);
      var inventory :- InventoryArgument(d);
      var stamina :- StatArgument(d, Stamina, 100);
      Success(Vitals(hp, hunger, thirst, money, inventory, stamina))
  }

  /** What a loaded player holds: each given attribute, and the constructor's default for each one not given. */
  lemma LoadedAttributes(data: Snapshot)
    requires FromSnapshot(data).Success?
    ensures var v := FromSnapshot(data).value;
      && (forall s :: StatName(s) in data ==> data[StatName(s)] == JInt(v.Get(s)))
      && (forall s :: StatName(s) !in data ==> v.Get(s) == FreshVitals.Get(s))
      && ("inventory" in data && data["inventory"].JList? ==> v.inventory == data["inventory"].elems)
      && ("inventory" !in data || !Truthy(data["inventory"]) ==> v.inventory == [])
  {
  }

  /** Loading what `save` wrote gives back the same player. */
  lemma SaveLoadRoundTrip(v: Vitals)
    ensures FromSnapshot(SnapshotOf(v)) == Success(v)
  {
    var m := SnapshotOf(v);
    assert WithStaminaDefault(m) == m;
    assert m["inventory"] == JList(v.inventory);
  }

  /** A snapshot written before stamina existed loads with stamina 100 and every other attribute kept. */
  lemma LegacySnapshotGetsStamina(v: Vitals)
    ensures FromSnapshot(SnapshotOf(v) - {"stamina"}) == Success(v.(stamina := LegacyStamina))
  {
    var m := SnapshotOf(v) - {"stamina"};
    assert m["inventory"] == JList(v.inventory);
    assert WithStaminaDefault(m) == SnapshotOf(v.(stamina := LegacyStamina));
  }

  /** The player object; every attribute is updated in place. */
  class Player {
    var hp: int
    var hunger: int
    var thirst: int
    var money: int
    var inventory: seq<Json>
    var stamina: int

    /** The player's current value. */
    function State(): Vitals
      reads this
    {
      Vitals(hp, hunger, thirst, money, inventory, stamina)
    }

    /** `Player(...)`: the defaults of a new game; an absent or empty inventory starts empty. */
    constructor (hp: int := 100, hunger: int := 50, thirst: int := 50, money: int := 20,
                 inventory: Option<seq<Json>> := None, stamina: int := 100)
      ensures State() == Vitals(hp, hunger, thirst, money, if inventory.Some? then inventory.value else [], stamina)
    {
      this.hp := hp;
      this.hunger := hunger;
      this.thirst := thirst;
      this.money := money;
      this.inventory := if inventory.Some? && inventory.value != [] then inventory.value else [];
      this.stamina := stamina;
    }

    /** `update_stat`: a known stat moves by `value`, clamped at zero; an unknown name is ignored. */
    method UpdateStat(stat: string, value: int)
      modifies this
      ensures State() == UpdatedStat(old(State()), stat, value)
    {
      match StatNamed(stat)
      case None =>
      case Some(s) =>
        var x := Max(0, State().Get(s) + value);
        SetStat(s, x);
    }

    /** `setattr(player, s, x)` for one of the numeric attributes. */
    method SetStat(s: Stat, x: int)
      modifies this
      ensures State() == old(State()).With(s, x)
    {
      match s
      case Hp => hp := x;
      case Hunger => hunger := x;
      case Thirst => thirst := x;
      case Money => money := x;
      case Stamina => stamina := x;
    }

    /** `add_item`: the item goes to the end of the inventory; nothing else changes. */
    method AddItem(item: Json)
      modifies this
      ensures State() == old(State()).(inventory := old(inventory) + [item])
    {
      inventory := inventory + [item];
    }

    /** Overwrites every attribute; how a command's effect lands on the player. */
    method Become(v: Vitals)
      modifies this
      ensures State() == v
    {
      hp, hunger, thirst, money, inventory, stamina := v.hp, v.hunger, v.thirst, v.money, v.inventory, v.stamina;
    }

    /** `save`: the dictionary written to the save file, from which `load` restores this player. */
    function Save(): (m: Snapshot)
      reads this
      ensures m.Keys == FieldNames
      ensures FromSnapshot(m) == Success(State())
    {
      SaveLoadRoundTrip(State());
      SnapshotOf(State())
    }

    /** `Player.load`: a new player from a snapshot, or the constructor's rejection. */
    static method Load(data: Snapshot) returns (r: Result<Player, LoadError>)
      ensures r.Failure? ==> FromSnapshot(data) == Failure(r.error)
      ensures r.Success? ==> fresh(r.value) && FromSnapshot(data) == Success(r.value.State())
    {
      match FromSnapshot(data)
      case Failure(e) =>
        r := Failure(e);
      case Success(v) =>
        var p := new Player(v.hp, v.hunger, v.thirst, v.money, Some(v.inventory), v.stamina);
        r := Success(p);
    }
  }
}
