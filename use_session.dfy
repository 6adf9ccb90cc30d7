/**
 * The session hook (hooks/useSession.ts): the learner record held in UI
 * state, with copy-on-write mutators. Each mutator computes the next
 * record from the previous one, stores it as the new state, and writes it
 * to the key-value store.
 *
 * `updateMultiplicationData` is called by the fast-multiplication screen
 * but is not defined in hooks/useSession.ts; it is modelled here as
 * "replace the `multiplicationData` field and persist", by analogy with
 * the other mutators.
 */
module UseSession {
  import opened Types
  import opened Session

  /** addTokens: exactly `amount` more tokens, nothing else changed. */
  function AddTokens(s: SessionData, amount: int): (r: SessionData)
    ensures r.tokens == s.tokens + amount
    ensures r.(tokens := s.tokens) == s
  {
    s.(tokens := s.tokens + amount)
  }

  /** updateSection: one section's difficulty state replaced, every other section and field kept. */
  function UpdateSection(s: SessionData, section: MathSection, state: DifficultyState): (r: SessionData)
    ensures section in r.sections && r.sections[section] == state
    ensures r.sections.Keys == s.sections.Keys + {section}
    ensures forall m :: m in s.sections && m != section ==> r.sections[m] == s.sections[m]
    ensures r.(sections := s.sections) == s
  {
    s.(sections := s.sections[section := state])
  }

  /**
   * purchaseItem: refused (no new record, nothing written) when the tokens
   * do not cover the cost; otherwise the cost is deducted and the id
   * appended, without checking earlier ownership.
   */
  function PurchaseItem(s: SessionData, itemId: string, cost: int): (r: Option<SessionData>)
    ensures r.None? <==> s.tokens < cost
    ensures r.Some? ==> r.value.tokens == s.tokens - cost && r.value.tokens >= 0
    ensures r.Some? ==> r.value.purchasedItems == s.purchasedItems + [itemId]
    ensures r.Some? ==> r.value.(tokens := s.tokens, purchasedItems := s.purchasedItems) == s
  {
    if s.tokens < cost then None
    else Some(s.(tokens := s.tokens - cost, purchasedItems := s.purchasedItems + [itemId]))
  }

  /** equipItem: the slot holds the id (owned or not); other slots are kept. */
  function EquipItem(s: SessionData, itemId: string, category: CosmeticCategory): (r: SessionData)
    ensures category in r.equipped && r.equipped[category] == Some(itemId)
    ensures r.equipped.Keys == s.equipped.Keys + {category}
    ensures forall c :: c in s.equipped && c != category ==> r.equipped[c] == s.equipped[c]
    ensures r.(equipped := s.equipped) == s
  {
    s.(equipped := s.equipped[category := Some(itemId)])
  }

  /** unequipItem: the slot is emptied; other slots are kept. */
  function UnequipItem(s: SessionData, category: CosmeticCategory): (r: SessionData)
    ensures category in r.equipped && r.equipped[category] == None
    ensures r.equipped.Keys == s.equipped.Keys + {category}
    ensures forall c :: c in s.equipped && c != category ==> r.equipped[c] == s.equipped[c]
    ensures r.(equipped := s.equipped) == s
  {
    s.(equipped := s.equipped[category := None])
  }

  function SetUserName(s: SessionData, name: string): (r: SessionData)
    ensures r.userName == name && r.(userName := s.userName) == s
  {
    s.(userName := name)
  }

  function UpdateMultiplicationData(s: SessionData, data: MultiplicationSessionData): (r: SessionData)
    ensures r.multiplicationData == Some(data) && r.(multiplicationData := s.multiplicationData) == s
  {
    s.(multiplicationData := Some(data))
  }

  /** Equipping and then unequipping a slot is the same as unequipping it. */
  lemma EquipThenUnequip(s: SessionData, itemId: string, category: CosmeticCategory)
    ensures UnequipItem(EquipItem(s, itemId, category), category) == UnequipItem(s, category)
  {
  }

  /** Updating a section twice with the same state is the same as once. */
  lemma UpdateSectionIdempotent(s: SessionData, section: MathSection, state: DifficultyState)
    ensures UpdateSection(UpdateSection(s, section, state), section, state) == UpdateSection(s, section, state)
  {
  }

  /** Buying the same item twice charges twice and lists it twice. */
  lemma RepeatPurchaseCharges(s: SessionData, itemId: string, cost: int)
    requires s.tokens >= 2 * cost && cost >= 0
    ensures PurchaseItem(s, itemId, cost).Some?
    ensures var once := PurchaseItem(s, itemId, cost).value;
      PurchaseItem(once, itemId, cost).Some? &&
      PurchaseItem(once, itemId, cost).value.tokens == s.tokens - 2 * cost &&
      multiset(PurchaseItem(once, itemId, cost).value.purchasedItems)[itemId] == multiset(s.purchasedItems)[itemId] + 2
  {
  }

  /** The mutators, as values. */
  datatype SessionOp =
    | AddTokensOp(amount: int)
    | UpdateSectionOp(section: MathSection, state: DifficultyState)
    | PurchaseItemOp(itemId: string, cost: int)
    | EquipItemOp(itemId: string, category: CosmeticCategory)
    | UnequipItemOp(category: CosmeticCategory)
    | SetUserNameOp(name: string)
    | UpdateMultiplicationDataOp(data: MultiplicationSessionData)

  /** The record after one mutator; a refused purchase leaves it as it was. */
  function Apply(s: SessionData, op: SessionOp): SessionData {
    match op
    case AddTokensOp(amount) => AddTokens(s, amount)
    case UpdateSectionOp(section, state) => UpdateSection(s, section, state)
    case PurchaseItemOp(itemId, cost) =>
      var r := PurchaseItem(s, itemId, cost);
      if r.Some? then r.value else s
    case EquipItemOp(itemId, category) => EquipItem(s, itemId, category)
    case UnequipItemOp(category) => UnequipItem(s, category)
    case SetUserNameOp(name) => SetUserName(s, name)
    case UpdateMultiplicationDataOp(data) => UpdateMultiplicationData(s, data)
  }

  function ApplyAll(s: SessionData, ops: seq<SessionOp>): SessionData {
    if ops == [] then s else Apply(ApplyAll(s, ops[..|ops| - 1]), ops[|ops| - 1])
  }

  function Earned(ops: seq<SessionOp>): int {
    if ops == [] then 0
    else Earned(ops[..|ops| - 1]) + (if ops[|ops| - 1].AddTokensOp? then ops[|ops| - 1].amount else 0)
  }

  /** Credits are non-negative and prices are non-negative, as with every caller and shop item. */
  predicate NonNegativeAmounts(ops: seq<SessionOp>) {
    forall i :: 0 <= i < |ops| ==>
      (ops[i].AddTokensOp? ==> ops[i].amount >= 0) && (ops[i].PurchaseItemOp? ==> ops[i].cost >= 0)
  }

  /**
   * Tokens never go negative, and the balance never exceeds the starting
   * tokens plus all credits: purchases only ever spend what is there.
   */
  lemma {:induction false} TokensStayCovered(s: SessionData, ops: seq<SessionOp>)
    requires s.tokens >= 0 && NonNegativeAmounts(ops)
    ensures 0 <= ApplyAll(s, ops).tokens <= s.tokens + Earned(ops)
  {
    if ops != [] {
      var init := ops[..|ops| - 1];
      assert NonNegativeAmounts(init) by {
        forall i | 0 <= i < |init|
          ensures (init[i].AddTokensOp? ==> init[i].amount >= 0) && (init[i].PurchaseItemOp? ==> init[i].cost >= 0)
        {
          assert init[i] == ops[i];
        }
      }
      TokensStayCovered(s, init);
    }
  }

  /**
   * The hook: the current record plus the store it persists to. After every
   * mutator the store holds exactly the current record.
   */
  class SessionHook {
    var session: SessionData
    const store: KeyValueStore

    ghost predicate Persisted()
      reads this, store
    {
      GetSession(store) == session
    }

    /** The first render loads the record from the store. */
    constructor(store: KeyValueStore)
      ensures this.store == store && session == GetSession(store)
      ensures Persisted()
    {
      this.store := store;
      session := GetSession(store);
    }

    method Commit(next: SessionData)
      modifies this, store
      ensures session == next
      ensures store.items == old(store.items)[SessionKey := Serialize(next)]
      ensures Persisted()
    {
      session := next;
      SaveSession(store, next);
      LoadAfterSave(old(store.items), next);
    }

    method AddTokensAndSave(amount: int)
      modifies this, store
      ensures session == AddTokens(old(session), amount)
      ensures store.items == old(store.items)[SessionKey := Serialize(session)]
      ensures Persisted()
    {
      Commit(AddTokens(session, amount));
    }

    method UpdateSectionAndSave(section: MathSection, state: DifficultyState)
      modifies this, store
      ensures session == UpdateSection(old(session), section, state)
      ensures store.items == old(store.items)[SessionKey := Serialize(session)]
      ensures Persisted()
    {
      Commit(UpdateSection(session, section, state));
    }

    /** A refused purchase changes neither the record nor the store. */
    method PurchaseItemAndSave(itemId: string, cost: int)
      requires Persisted()
      modifies this, store
      ensures PurchaseItem(old(session), itemId, cost).None? ==>
        session == old(session) && store.items == old(store.items)
      ensures PurchaseItem(old(session), itemId, cost).Some? ==>
        session == PurchaseItem(old(session), itemId, cost).value &&
        store.items == old(store.items)[SessionKey := Serialize(session)]
      ensures Persisted()
    {
      var next := PurchaseItem(session, itemId, cost);
      if next.Some? {
        Commit(next.value);
      }
    }

    method EquipItemAndSave(itemId: string, category: CosmeticCategory)
      modifies this, store
      ensures session == EquipItem(old(session), itemId, category)
      ensures store.items == old(store.items)[SessionKey := Serialize(session)]
      ensures Persisted()
    {
      Commit(EquipItem(session, itemId, category));
    }

    method UnequipItemAndSave(category: CosmeticCategory)
      modifies this, store
      ensures session == UnequipItem(old(session), category)
      ensures store.items == old(store.items)[SessionKey := Serialize(session)]
      ensures Persisted()
    {
      Commit(UnequipItem(session, category));
    }

    method SetUserNameAndSave(name: string)
      modifies this, store
      ensures session == SetUserName(old(session), name)
      ensures store.items == old(store.items)[SessionKey := Serialize(session)]
      ensures Persisted()
    {
      Commit(SetUserName(session, name));
    }

    method UpdateMultiplicationDataAndSave(data: MultiplicationSessionData)
      modifies this, store
      ensures session == UpdateMultiplicationData(old(session), data)
      ensures store.items == old(store.items)[SessionKey := Serialize(session)]
      ensures Persisted()
    {
      Commit(UpdateMultiplicationData(session, data));
    }
  }
}
