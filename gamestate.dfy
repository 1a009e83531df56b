/**
 * Save data: the game state record filled from a configuration, the quest
 * lookup, and the conversions of inventory items and quests to their saved
 * forms.
 */
module GameState {
  import opened Common
  import opened ItemDb

  /** A party member's saved description; only its identity matters here. */
  datatype CharacterInfo = CharacterInfo(id: string)

  datatype AreaEventData = AreaEventData(complete: bool, id: string)

  datatype AreaData = AreaData(id: string, events: seq<AreaEventData>)

  /** An inventory entry: an item definition and how many are held. */
  datatype Item = Item(info: ItemInfo, count: int)

  /** A quest's progress, as far as saving reads it. */
  datatype Quest = Quest(id: string, isComplete: bool, isStarted: bool)

  datatype ItemData = ItemData(count: int, id: string)

  datatype QuestData = QuestData(isStarted: bool, isComplete: bool, id: string)

  /** `GameStateData.Config`. */
  datatype Config = Config(
    gold: int, playTime: real, location: (real, real), sceneName: string,
    partyMembers: seq<CharacterInfo>, items: seq<ItemData>, keyItems: seq<ItemData>,
    quests: seq<QuestData>, areas: seq<AreaData>)

  /** Every field of a `GameStateData`, as one value. */
  datatype Snapshot = Snapshot(
    gold: int, playTime: real, location: (real, real), sceneName: string,
    partyMembers: seq<CharacterInfo>, items: seq<ItemData>, keyItems: seq<ItemData>,
    quests: seq<QuestData>, areas: seq<AreaData>)

  /** The fields of a freshly created `GameStateData`. */
  const Blank: Snapshot := Snapshot(0, 0.0, (0.0, 0.0), "", [], [], [], [], [])

  /**
   * `SetData` on a snapshot: a missing configuration changes nothing;
   * otherwise every field but the key items is taken from it.
   */
  function Applied(s: Snapshot, config: Option<Config>): Snapshot
  {
    match config
    case None => s
    case Some(c) =>
      s.(gold := c.gold, playTime := c.playTime, sceneName := c.sceneName, location := c.location,
         partyMembers := c.partyMembers, items := c.items, quests := c.quests, areas := c.areas)
  }

  /**
   * Applying a configuration keeps the key items, takes every other field
   * from it, and applying it again changes nothing more.
   */
  lemma AppliedMeaning(s: Snapshot, c: Config)
    ensures Applied(s, Some(c)).keyItems == s.keyItems
    ensures Applied(s, Some(c)) == Snapshot(c.gold, c.playTime, c.location, c.sceneName,
      c.partyMembers, c.items, s.keyItems, c.quests, c.areas)
    ensures Applied(Applied(s, Some(c)), Some(c)) == Applied(s, Some(c))
    ensures Applied(s, None) == s
  {
  }

  /** Two states that differ only in their key items end up equal after the same configuration. */
  lemma AppliedForgetsAllButKeyItems(s: Snapshot, t: Snapshot, c: Config)
    requires s.keyItems == t.keyItems
    ensures Applied(s, Some(c)) == Applied(t, Some(c))
  {
  }

  /** A configuration's key items never reach the state it is applied to. */
  lemma KeyItemsNotLoaded(c: Config)
    requires c.keyItems != []
    ensures Applied(Blank, Some(c)).keyItems != c.keyItems
  {
  }

  /** `ItemData.FromItem`: the saved form keeps the count and the item's id. */
  function FromItem(item: Item): (d: ItemData)
    ensures d.count == item.count && d.id == item.info.id
  {
    ItemData(item.count, item.info.id)
  }

  /** `QuestData.FromQuest`: the saved form keeps the id and both progress flags. */
  function FromQuest(q: Quest): (d: QuestData)
    ensures d.id == q.id && d.isComplete == q.isComplete && d.isStarted == q.isStarted
  {
    QuestData(q.isStarted, q.isComplete, q.id)
  }

  /** `ItemData.FromItems`: the saved forms of the items, one each, in order. */
  method FromItems(items: seq<Item>) returns (data: seq<ItemData>)
    ensures |data| == |items|
    ensures forall i :: 0 <= i < |items| ==> data[i] == FromItem(items[i])
  {
    data := [];
    for i := 0 to |items|
      invariant |data| == i
      invariant forall j :: 0 <= j < i ==> data[j] == FromItem(items[j])
    {
      data := data + [FromItem(items[i])];
    }
  }

  /** `QuestData.FromQuests`: the saved forms of the quests, one each, in order. */
  method FromQuests(quests: seq<Quest>) returns (data: seq<QuestData>)
    ensures |data| == |quests|
    ensures forall i :: 0 <= i < |quests| ==> data[i] == FromQuest(quests[i])
  {
    data := [];
    for i := 0 to |quests|
      invariant |data| == i
      invariant forall j :: 0 <= j < i ==> data[j] == FromQuest(quests[j])
    {
      data := data + [FromQuest(quests[i])];
    }
  }

  /** The saved game state. */
  class GameStateData {
    var gold: int
    var playTime: real
    var location: (real, real)
    var sceneName: string
    var partyMembers: seq<CharacterInfo>
    var items: seq<ItemData>
    var keyItems: seq<ItemData>
    var quests: seq<QuestData>
    var areas: seq<AreaData>

    function State(): Snapshot
      reads this
    {
      Snapshot(gold, playTime, location, sceneName, partyMembers, items, keyItems, quests, areas)
    }

    /** `GameStateData(config)`: a blank state with the configuration applied. */
    constructor (config: Option<Config>)
      ensures State() == Applied(Blank, config)
    {
      gold := 0;
      playTime := 0.0;
      location := (0.0, 0.0);
      sceneName := "";
      partyMembers := [];
      items := [];
      keyItems := [];
      quests := [];
      areas := [];
      new;
      SetData(config);
    }

    /** `SetData`: copies the configuration's fields, except the key items. */
    method SetData(config: Option<Config>)
      modifies this
      ensures State() == Applied(old(State()), config)
    {
      if config.None? {
        return;
      }
      var c := config.value;
      gold := c.gold;
      playTime := c.playTime;
      sceneName := c.sceneName;
      location := c.location;
      partyMembers := c.partyMembers;
      items := c.items;
      quests := c.quests;
      areas := c.areas;
    }

    /** `GetQuestData`: the first saved quest with that id, if any. */
    method GetQuestData(id: string) returns (r: Option<QuestData>)
      ensures r.None? <==> forall i :: 0 <= i < |quests| ==> quests[i].id != id
      ensures r.Some? ==>
        (exists i :: 0 <= i < |quests| && quests[i] == r.value && r.value.id == id &&
          (forall j :: 0 <= j < i ==> quests[j].id != id))
    {
      var i := 0;
      while i < |quests|
        invariant 0 <= i <= |quests|
        invariant forall j :: 0 <= j < i ==> quests[j].id != id
      {
        if quests[i].id == id {
          return Some(quests[i]);
        }
        i := i + 1;
      }
      return None;
    }
  }
}
