/**
 * The Finam store object: its provider registry and symbol directory, fixed
 * at construction, and its notification queue; and the singleton metaclass
 * that hands out one store per process.
 */
module Store {
  import opened Wrappers
  import opened Tickers
  import opened Providers

  /** `(msg, args, kwargs)` as queued by `put_notification`; V stands for any Python value. */
  datatype Notification<V> = Notification(msg: V, args: seq<V>, kwargs: map<string, V>)

  /** The notifications of a deque that holds no sentinel. */
  function Unwrapped<V>(q: seq<Option<Notification<V>>>): (r: seq<Notification<V>>)
    requires forall i :: 0 <= i < |q| ==> q[i].Some?
    ensures |r| == |q|
    ensures forall i :: 0 <= i < |q| ==> r[i] == q[i].value
  {
    if |q| == 0 then [] else Unwrapped(q[..|q| - 1]) + [q[|q| - 1].value]
  }

  class FNStore<V> {
    /** `self.providers`: provider name to (connection, client id). */
    const providers: Registry
    /** `self.provider`: the default provider's connection. */
    const provider: Connection
    /** `self.symbols.securities`: the directory fetched through the default provider. */
    const symbols: seq<Security>
    /** `self.notifs`: a deque of notifications; None is the drain's sentinel. */
    var notifs: seq<Option<Notification<V>>>

    /** Outside a drain the deque holds only notifications, never the sentinel. */
    ghost predicate Valid()
      reads this
    {
      WellFormed(providers) && |providers.names| > 0 &&
      provider == DefaultConnection(providers) &&
      forall i :: 0 <= i < |notifs| ==> notifs[i].Some?
    }

    /** The notifications waiting to be drained, oldest first. */
    ghost function Pending(): seq<Notification<V>>
      reads this
      requires Valid()
    {
      Unwrapped(notifs)
    }

    /** Sets up the fields once the provider loop has produced a non-empty registry. */
    constructor (reg: Registry, fetch: Connection -> seq<Security>)
      requires WellFormed(reg) && |reg.names| > 0
      ensures Valid()
      ensures providers == reg && provider == DefaultConnection(reg)
      ensures symbols == fetch(provider) && notifs == []
    {
      providers := reg;
      provider := DefaultConnection(reg);
      symbols := fetch(DefaultConnection(reg));
      notifs := [];
    }

    /**
     * `FNStore.__init__`: registers every config in list order, then takes the
     * first key's connection as default and fetches the directory through it.
     * A config without `access_token` or `client_id` and an empty list fail.
     */
    static method Create(configs: seq<ProviderConfig>, fetch: Connection -> seq<Security>) returns (r: Result<FNStore<V>>)
      ensures Setup(configs).Failure? ==> r == Failure(Setup(configs).error)
      ensures Setup(configs).Success? ==> r.Success? && fresh(r.value) && r.value.Valid()
      ensures Setup(configs).Success? ==> r.value.providers == Setup(configs).value
      ensures r.Success? ==> r.value.provider == DefaultConnection(r.value.providers)
      ensures r.Success? ==> r.value.symbols == fetch(r.value.provider) && r.value.Pending() == []
    {
      var reg := Registry([], map[]);
      var i := 0;
      while i < |configs|
        invariant i <= |configs|
        invariant Registered(configs[..i]) == Success(reg)
      {
        var c := configs[i];
        var name := NameOf(c);
        assert configs[..i + 1][..i] == configs[..i] && configs[..i + 1][i] == c;
        if c.accessToken.None? {
          assert Registered(configs[..i + 1]) == Failure(MissingKey("access_token"));
          RegisteredKeepsFailure(configs, i + 1);
          return Failure(MissingKey("access_token"));
        }
        var connection := Connection(c.accessToken.value);
        if c.clientId.None? {
          assert Registered(configs[..i + 1]) == Failure(MissingKey("client_id"));
          RegisteredKeepsFailure(configs, i + 1);
          return Failure(MissingKey("client_id"));
        }
        assert Open(c) == Success(Provider(connection, c.clientId.value));
        reg := Assign(reg, name, Provider(connection, c.clientId.value));
        i := i + 1;
      }
      assert configs[..i] == configs;
      if |reg.names| == 0 {
        return Failure(NoProviders);
      }
      var store := new FNStore(reg, fetch);
      return Success(store);
    }

    /** `put_notification`: appends one notification at the back. */
    method PutNotification(msg: V, args: seq<V>, kwargs: map<string, V>)
      requires Valid()
      modifies this
      ensures Valid()
      ensures notifs == old(notifs) + [Some(Notification(msg, args, kwargs))]
      ensures Pending() == old(Pending()) + [Notification(msg, args, kwargs)]
    {
      notifs := notifs + [Some(Notification(msg, args, kwargs))];
    }

    /**
     * `get_notifications`: appends the sentinel, then pops from the front up
     * to it. Returns every pending notification in put order and leaves the
     * deque empty.
     */
    method GetNotifications() returns (drained: seq<Notification<V>>)
      requires Valid()
      modifies this
      ensures Valid()
      ensures drained == old(Pending())
      ensures notifs == [] && Pending() == []
    {
      ghost var pending := notifs;
      notifs := notifs + [None];
      drained := [];
      while true
        invariant |drained| <= |pending|
        invariant notifs == pending[|drained|..] + [None]
        invariant drained == Unwrapped(pending[..|drained|])
        decreases |notifs|
      {
        var x := notifs[0];
        notifs := notifs[1..];
        if x.None? {
          break;
        }
        assert pending[..|drained| + 1][..|drained|] == pending[..|drained|];
        drained := drained + [x.value];
      }
      assert pending[..|drained|] == pending;
    }
  }

  /** The class-level `_singleton` slot of MetaSingleton, for the FNStore class. */
  class MetaSingleton<V> {
    var singleton: FNStore?<V>

    /** A stored instance is a fully built store. */
    ghost predicate Valid()
      reads this, singleton
    {
      singleton != null ==> singleton.Valid()
    }

    /** `MetaSingleton.__init__`: a freshly defined class has no instance yet. */
    constructor ()
      ensures Valid() && singleton == null
    {
      singleton := null;
    }

    /**
     * `MetaSingleton.__call__`: the first successful construction is stored
     * and every later call returns it, ignoring its own arguments. A failed
     * construction propagates its error and stores nothing.
     */
    method Call(configs: seq<ProviderConfig>, fetch: Connection -> seq<Security>) returns (r: Result<FNStore<V>>)
      requires Valid()
      modifies this
      ensures Valid() && (r.Success? ==> r.value.Valid())
      ensures old(singleton) != null ==> r == Success(old(singleton)) && singleton == old(singleton)
      ensures old(singleton) == null && Setup(configs).Failure? ==>
                r == Failure(Setup(configs).error) && singleton == null
      ensures old(singleton) == null && Setup(configs).Success? ==>
                r.Success? && fresh(r.value) && singleton == r.value && r.value.Valid() &&
                r.value.providers == Setup(configs).value && r.value.symbols == fetch(r.value.provider) &&
                r.value.Pending() == []
    {
      if singleton == null {
        var created := FNStore<V>.Create(configs, fetch);
        if created.Failure? {
          return created;
        }
        singleton := created.value;
      }
      return Success(singleton);
    }
  }

  /** Two constructions in one process: the second yields the first's store, whatever its arguments. */
  method ConstructTwice<V>(meta: MetaSingleton<V>, first: seq<ProviderConfig>, second: seq<ProviderConfig>,
                           fetch: Connection -> seq<Security>)
    returns (a: Result<FNStore<V>>, b: Result<FNStore<V>>)
    requires meta.Valid() && meta.singleton == null && Setup(first).Success?
    modifies meta
    ensures a.Success? && b == a && b.value.Valid()
    ensures a.value.providers == Setup(first).value
  {
    a := meta.Call(first, fetch);
    b := meta.Call(second, fetch);
  }

  /** Put "a", put "b", drain twice: the first drain gives both in order, the second nothing. */
  method DrainTwice(store: FNStore<string>) returns (first: seq<Notification<string>>, second: seq<Notification<string>>)
    requires store.Valid() && store.Pending() == []
    modifies store
    ensures first == [Notification("a", [], map[]), Notification("b", [], map[])]
    ensures second == []
  {
    store.PutNotification("a", [], map[]);
    store.PutNotification("b", [], map[]);
    first := store.GetNotifications();
    second := store.GetNotifications();
  }
}
