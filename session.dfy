/**
 * Session persistence (lib/session.ts): the default learner record, and
 * loading, saving and removing it under one key of the browser's key-value
 * store.
 *
 * The store maps keys to stored values. A stored value is either text that
 * does not parse, a parsed JSON value that is not an object, or a parsed
 * object, of which only the six session fields matter; each of them may be
 * absent.
 */
module Session {
  import opened Types

  const SessionKey: string := "animal-maths-session"

  /** The top-level fields of a parsed stored object; `None` is an absent field. */
  datatype StoredRecord = StoredRecord(
    userName: Option<string>,
    tokens: Option<int>,
    purchasedItems: Option<seq<string>>,
    equipped: Option<map<CosmeticCategory, Option<string>>>,
    sections: Option<map<MathSection, DifficultyState>>,
    multiplicationData: Option<MultiplicationSessionData>)

  datatype Stored = Unparseable | NotAnObject | Parsed(record: StoredRecord)

  function FreshSection(): DifficultyState {
    DifficultyState(1, 0, 0)
  }

  /** A new learner: no name, no tokens, nothing bought or worn, every section at level 1. */
  function DefaultSession(): (s: SessionData)
    ensures s.userName == "" && s.tokens == 0 && s.purchasedItems == []
    ensures forall c: CosmeticCategory :: c in s.equipped && s.equipped[c] == None
    ensures forall m: MathSection :: m in s.sections && s.sections[m] == FreshSection()
    ensures s.multiplicationData == None
  {
    var s := SessionData(
      "", 0, [],
      map[Hat := None, Scarf := None, Background := None, Accessory := None],
      map[Addition := FreshSection(), Subtraction := FreshSection(), Multiplication := FreshSection(),
          SkipCounting := FreshSection(), AreaPerimeter := FreshSection()],
      None);
    assert forall c: CosmeticCategory :: c in s.equipped by {
      forall c: CosmeticCategory ensures c in s.equipped { CategoryCases(c); }
    }
    assert forall m: MathSection :: m in s.sections by {
      forall m: MathSection ensures m in s.sections { SectionCases(m); }
    }
    s
  }

  lemma CategoryCases(c: CosmeticCategory)
    ensures c == Hat || c == Scarf || c == Background || c == Accessory
  {
  }

  lemma SectionCases(m: MathSection)
    ensures m == Addition || m == Subtraction || m == Multiplication || m == SkipCounting || m == AreaPerimeter
  {
  }

  function OrElse<T>(o: Option<T>, d: T): T {
    if o.Some? then o.value else d
  }

  /** Object spread `{ ...base, ...record }`: each present field replaces the base's whole field. */
  function Spread(base: SessionData, r: StoredRecord): SessionData {
    SessionData(
      OrElse(r.userName, base.userName),
      OrElse(r.tokens, base.tokens),
      OrElse(r.purchasedItems, base.purchasedItems),
      OrElse(r.equipped, base.equipped),
      OrElse(r.sections, base.sections),
      if r.multiplicationData.Some? then r.multiplicationData else base.multiplicationData)
  }

  /** What getSession returns for a given store content. */
  function Load(items: map<string, Stored>): (r: SessionData)
    ensures SessionKey !in items || !items[SessionKey].Parsed? ==> r == DefaultSession()
    ensures r.multiplicationData.Some? ==>
      SessionKey in items && items[SessionKey].Parsed? && items[SessionKey].record.multiplicationData == r.multiplicationData
  {
    if SessionKey !in items then DefaultSession()
    else match items[SessionKey]
      case Parsed(r) => Spread(DefaultSession(), r)
      case _ => DefaultSession()
  }

  /** JSON.stringify of a session: every field present, an absent `multiplicationData` left out. */
  function Serialize(s: SessionData): (r: Stored)
    ensures r.Parsed? && Spread(DefaultSession(), r.record) == s
  {
    Parsed(StoredRecord(Some(s.userName), Some(s.tokens), Some(s.purchasedItems),
                        Some(s.equipped), Some(s.sections), s.multiplicationData))
  }

  /** The browser's key-value store. */
  class KeyValueStore {
    var items: map<string, Stored>

    constructor(initial: map<string, Stored>)
      ensures items == initial
    {
      items := initial;
    }
  }

  function GetSession(store: KeyValueStore): SessionData
    reads store
  {
    Load(store.items)
  }

  method SaveSession(store: KeyValueStore, session: SessionData)
    modifies store
    ensures store.items == old(store.items)[SessionKey := Serialize(session)]
  {
    store.items := store.items[SessionKey := Serialize(session)];
  }

  method ResetSession(store: KeyValueStore) returns (session: SessionData)
    modifies store
    ensures store.items == old(store.items) - {SessionKey}
    ensures session == DefaultSession()
  {
    store.items := store.items - {SessionKey};
    session := DefaultSession();
  }

  /** Loading what was just saved gives back the saved session, whatever else the store holds. */
  lemma LoadAfterSave(items: map<string, Stored>, s: SessionData)
    ensures Load(items[SessionKey := Serialize(s)]) == s
  {
  }

  /** No stored value, unparseable text, or a non-object all load as the default. */
  lemma LoadFallsBack(items: map<string, Stored>)
    requires SessionKey !in items || !items[SessionKey].Parsed?
    ensures Load(items) == DefaultSession()
  {
  }

  /** After a reset, loading gives the default, and every other key is untouched. */
  lemma LoadAfterReset(items: map<string, Stored>)
    ensures Load(items - {SessionKey}) == DefaultSession()
    ensures forall k :: k in items && k != SessionKey ==> k in items - {SessionKey} && (items - {SessionKey})[k] == items[k]
  {
  }

  /**
   * A stored object's present fields win and its absent fields come from
   * the default; nested maps are taken whole, so a stored `equipped` or
   * `sections` map missing an entry loads still missing it.
   */
  lemma LoadMergesTopLevel(items: map<string, Stored>, r: StoredRecord)
    requires SessionKey in items && items[SessionKey] == Parsed(r)
    ensures Load(items).userName == if r.userName.Some? then r.userName.value else ""
    ensures Load(items).tokens == if r.tokens.Some? then r.tokens.value else 0
    ensures Load(items).purchasedItems == if r.purchasedItems.Some? then r.purchasedItems.value else []
    ensures r.equipped.Some? ==> Load(items).equipped == r.equipped.value
    ensures r.equipped.None? ==> forall c: CosmeticCategory :: c in Load(items).equipped && Load(items).equipped[c] == None
    ensures r.sections.Some? ==> Load(items).sections == r.sections.value
    ensures r.sections.None? ==> forall m: MathSection :: m in Load(items).sections && Load(items).sections[m] == FreshSection()
    ensures Load(items).multiplicationData == r.multiplicationData
  {
  }
}
