/** The process-wide `ContextStore` (app/store/context_store.py): three dicts, `user_details`,
    `connection_details` and `transaction_history`, held in one singleton instance. */
module ContextStores {
  import opened Wrappers
  import opened Values
  import opened Dicts

  /** The keys `_initialize` gives `user_details` and `connection_details`, in that order. */
  const UserFields: seq<string> := ["name", "location", "address", "phone", "email"]
  const ConnectionFields: seq<string> := ["connection_type", "provider_id", "item_id", "selection_id", "transaction_id"]

  /** The keys of `self.context`. */
  const UserSection := "user_details"
  const ConnectionSection := "connection_details"
  const HistorySection := "transaction_history"

  /** A dict that maps each of `fields`, in order, to None. */
  function AllNone(fields: seq<string>): (d: Dict)
    requires forall i, j :: 0 <= i < j < |fields| ==> fields[i] != fields[j]
    ensures d.Valid()
    ensures d.keys == fields
    ensures forall k :: k in d.entries ==> d.entries[k] == Null
  {
    Dict(fields, map k | k in fields :: Null)
  }

  /** The contents of the three sections at one moment. */
  datatype StoreState = StoreState(user: Dict, connection: Dict, history: Dict) {

    ghost predicate Valid() {
      user.Valid() && connection.Valid() && history.Valid()
    }

    /** `transaction_history.get(step)` is truthy: the test every handler makes of its predecessor. */
    predicate StepDone(step: string) {
      Truthy(history.Get(step))
    }

    /** `update_user_details(**kwargs)`. */
    function UpdateUserDetails(kwargs: seq<(string, Value)>): StoreState
    {
      StoreState(user.Update(kwargs), connection, history)
    }

    /** `update_connection_details(**kwargs)`. */
    function UpdateConnectionDetails(kwargs: seq<(string, Value)>): StoreState
    {
      StoreState(user, connection.Update(kwargs), history)
    }

    /** `add_transaction_history(action, data)`. */
    function AddTransactionHistory(action: string, data: Value): StoreState
    {
      StoreState(user, connection, history.Set(action, data))
    }
  }

  /** An update of one section merges the call's mapping into that section's entries and
      leaves the other two sections as they were. */
  lemma UpdatesTouchOneSection(s: StoreState, kwargs: seq<(string, Value)>)
    ensures s.UpdateUserDetails(kwargs).user.entries == s.user.entries + AsMap(kwargs)
    ensures s.UpdateUserDetails(kwargs).connection == s.connection
    ensures s.UpdateUserDetails(kwargs).history == s.history
    ensures s.UpdateConnectionDetails(kwargs).connection.entries == s.connection.entries + AsMap(kwargs)
    ensures s.UpdateConnectionDetails(kwargs).user == s.user
    ensures s.UpdateConnectionDetails(kwargs).history == s.history
  {
    UpdateMerges(s.user, kwargs);
    UpdateMerges(s.connection, kwargs);
  }

  /** Recording an action stores its data under the action's name and touches nothing else;
      recording an action again replaces its entry instead of adding a key. */
  lemma RecordSetsOneStep(s: StoreState, action: string, data: Value)
    ensures s.AddTransactionHistory(action, data).history.Get(action) == data
    ensures forall a :: a != action ==> s.AddTransactionHistory(action, data).history.Get(a) == s.history.Get(a)
    ensures |s.AddTransactionHistory(action, data).history.keys| ==
      |s.history.keys| + (if action in s.history.entries then 0 else 1)
    ensures s.AddTransactionHistory(action, data).user == s.user
    ensures s.AddTransactionHistory(action, data).connection == s.connection
  {
    SetProperties(s.history, action, data);
  }

  /** The state `_initialize` establishes: ten fields set to None and no history. */
  function Initial(): (s: StoreState)
    ensures s.Valid()
    ensures s.user.keys == UserFields && s.connection.keys == ConnectionFields
    ensures forall k :: k in s.user.entries ==> s.user.entries[k] == Null
    ensures forall k :: k in s.connection.entries ==> s.connection.entries[k] == Null
    ensures s.history.keys == [] && s.history.entries == map[]
    ensures forall step :: !s.StepDone(step)
  {
    StoreState(AllNone(UserFields), AllNone(ConnectionFields), Dict([], map[]))
  }

  /** What `get_value` returns: a plain value, or one of the store's own live dicts. */
  datatype Lookup = Plain(v: Value) | Live(section: Dictionary)

  class ContextStore {
    var userDetails: Dictionary
    var connectionDetails: Dictionary
    var transactionHistory: Dictionary

    ghost function Sections(): set<object>
      reads this
    {
      {userDetails, connectionDetails, transactionHistory}
    }

    /** The three sections are distinct dict objects, each well formed. */
    ghost predicate Valid()
      reads this, Sections()
    {
      && userDetails != connectionDetails
      && userDetails != transactionHistory
      && connectionDetails != transactionHistory
      && Contents().Valid()
    }

    ghost function Contents(): StoreState
      reads this, Sections()
    {
      StoreState(userDetails.contents, connectionDetails.contents, transactionHistory.contents)
    }

    /** `object.__new__` followed by `_initialize`. */
    constructor ()
      ensures Valid() && fresh(Sections())
      ensures Contents() == Initial()
    {
      userDetails := new Dictionary(Initial().user);
      connectionDetails := new Dictionary(Initial().connection);
      transactionHistory := new Dictionary(Initial().history);
    }

    /** `_initialize`: replaces all three sections with new dicts in the initial state. */
    method Initialize()
      modifies this
      ensures Valid() && fresh(Sections())
      ensures Contents() == Initial()
    {
      userDetails := new Dictionary(Initial().user);
      connectionDetails := new Dictionary(Initial().connection);
      transactionHistory := new Dictionary(Initial().history);
    }

    method UpdateUserDetails(kwargs: seq<(string, Value)>)
      requires Valid()
      modifies userDetails
      ensures Valid()
      ensures Contents() == old(Contents()).UpdateUserDetails(kwargs)
    {
      UpdateKeepsValid(userDetails.contents, kwargs);
      userDetails.Update(kwargs);
    }

    method UpdateConnectionDetails(kwargs: seq<(string, Value)>)
      requires Valid()
      modifies connectionDetails
      ensures Valid()
      ensures Contents() == old(Contents()).UpdateConnectionDetails(kwargs)
    {
      UpdateKeepsValid(connectionDetails.contents, kwargs);
      connectionDetails.Update(kwargs);
    }

    method AddTransactionHistory(action: string, data: Value)
      requires Valid()
      modifies transactionHistory
      ensures Valid()
      ensures Contents() == old(Contents()).AddTransactionHistory(action, data)
    {
      SetProperties(transactionHistory.contents, action, data);
      transactionHistory.Put(action, data);
    }

    /** The getters hand out the live section objects, not copies. */
    method GetUserDetails() returns (d: Dictionary)
      ensures d == userDetails
    {
      d := userDetails;
    }

    method GetConnectionDetails() returns (d: Dictionary)
      ensures d == connectionDetails
    {
      d := connectionDetails;
    }

    method GetTransactionHistory() returns (d: Dictionary)
      ensures d == transactionHistory
    {
      d := transactionHistory;
    }

    /** `self.context.get(key)`: the section a key of `self.context` names, if any. */
    function Section(key: string): (r: Option<Dictionary>)
      reads this
      ensures r.Some? <==> key in {UserSection, ConnectionSection, HistorySection}
      ensures r.Some? ==> r.value in Sections()
    {
      if key == UserSection then Some(userDetails)
      else if key == ConnectionSection then Some(connectionDetails)
      else if key == HistorySection then Some(transactionHistory)
      else None
    }

    /** `get_value(key, subkey)`: with a truthy subkey, that entry of the named section (None
        when the section or the entry is missing); otherwise the section itself, or None. */
    function GetValue(key: string, subkey: Option<string>): (r: Lookup)
      reads this, Sections()
      ensures Truthy(FromOptional(subkey)) && key == UserSection ==> r == Plain(Contents().user.Get(subkey.value))
      ensures Truthy(FromOptional(subkey)) && key == ConnectionSection ==> r == Plain(Contents().connection.Get(subkey.value))
      ensures Truthy(FromOptional(subkey)) && key == HistorySection ==> r == Plain(Contents().history.Get(subkey.value))
      ensures !Truthy(FromOptional(subkey)) && key == UserSection ==> r == Live(userDetails)
      ensures !Truthy(FromOptional(subkey)) && key == ConnectionSection ==> r == Live(connectionDetails)
      ensures !Truthy(FromOptional(subkey)) && key == HistorySection ==> r == Live(transactionHistory)
      ensures key !in {UserSection, ConnectionSection, HistorySection} ==> r == Plain(Null)
    {
      var section := Section(key);
      if subkey.Some? && subkey.value != "" then
        // `self.context.get(key, {}).get(subkey)`
        if section.Some? then Plain(section.value.contents.Get(subkey.value)) else Plain(Null)
      else
        if section.Some? then Live(section.value) else Plain(Null)
    }

    /** `reset`: back to the initial state, whatever came before. */
    method Reset()
      modifies this
      ensures Valid() && fresh(Sections())
      ensures Contents() == Initial()
    {
      Initialize();
    }
  }

  /** The class object `ContextStore`, whose `_instance` attribute holds the singleton. */
  class ContextStoreClass {
    var instance: ContextStore?

    constructor ()
      ensures instance == null
    {
      instance := null;
    }

    ghost function Footprint(): set<object>
      reads this, instance
    {
      if instance == null then {} else instance.Sections()
    }

    ghost predicate Valid()
      reads this, instance, Footprint()
    {
      instance != null ==> instance.Valid()
    }

    /** `ContextStore()`: the first call creates and initialises the instance; every later
        call returns that same instance without touching its state. */
    method New() returns (store: ContextStore)
      requires Valid()
      modifies this
      ensures Valid() && instance == store
      ensures old(instance) != null ==> store == old(instance) && store.Contents() == old(store.Contents())
      ensures old(instance) == null ==> fresh(store) && fresh(store.Sections()) && store.Contents() == Initial()
    {
      if instance == null {
        instance := new ContextStore();
      }
      store := instance;
    }
  }

  /** Two constructions in a row give one object, and the second does not clear what was
      recorded through the first. */
  method SingletonKeepsState(cls: ContextStoreClass, action: string, data: Value)
    returns (first: ContextStore, second: ContextStore)
    requires cls.Valid()
    modifies cls, cls.Footprint()
    ensures first == second
    ensures second.Valid() && second.Contents().history.Get(action) == data
  {
    first := cls.New();
    ghost var before := first.Contents();
    first.AddTransactionHistory(action, data);
    RecordSetsOneStep(before, action, data);
    second := cls.New();
  }

  /** A dict returned by a getter keeps showing later writes to the store, until
      `reset` swaps the store's sections for new ones and leaves it behind. */
  method HistoryViewIsLive(store: ContextStore, action: string, data: Value)
    returns (view: Dictionary, seen: Value)
    requires store.Valid()
    modifies store, store.Sections()
    ensures seen == data
    ensures view.contents.Get(action) == data
    ensures store.Valid() && store.Contents() == Initial() && view != store.transactionHistory
  {
    view := store.GetTransactionHistory();
    SetProperties(view.contents, action, data);
    store.AddTransactionHistory(action, data);
    seen := view.contents.Get(action);
    store.Reset();
  }

  /** Reset also drops keys that updates added beyond the ten initial fields. */
  method ResetDropsAddedKeys(store: ContextStore, key: string, value: Value)
    requires store.Valid() && key !in UserFields
    modifies store, store.Sections()
    ensures store.Valid() && key !in store.Contents().user.entries
  {
    store.UpdateUserDetails([(key, value)]);
    store.Reset();
  }
}
