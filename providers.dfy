/**
 * The provider registry that FNStore builds at construction: an
 * insertion-ordered dictionary from provider name to (connection, client id),
 * and the default provider taken from its first entry.
 */
module Providers {
  import opened Wrappers

  /** A FinamPy session, opaque to the store; the model keeps the access token it was opened with. */
  datatype Connection = Connection(accessToken: string)

  /** One dictionary of the `providers` list; any of its three keys may be absent. */
  datatype ProviderConfig = ProviderConfig(providerName: Option<string>, clientId: Option<string>, accessToken: Option<string>)

  /** A registered provider: its connection and its trading account. */
  datatype Provider = Provider(connection: Connection, clientId: string)

  /** Why construction fails: a KeyError on a config, or the IndexError of an empty registry. */
  datatype StoreError = MissingKey(key: string) | NoProviders

  datatype Result<+T> = Success(value: T) | Failure(error: StoreError)

  /** A Python dict from provider name to provider: `names` lists its keys in insertion order. */
  datatype Registry = Registry(names: seq<string>, entries: map<string, Provider>)

  const DefaultName: string := "default"

  /** The keys are listed once each, and the listed names are exactly the keys. */
  ghost predicate WellFormed(reg: Registry)
  {
    (forall i, j :: 0 <= i < j < |reg.names| ==> reg.names[i] != reg.names[j]) &&
    (forall k :: k in reg.entries <==> k in reg.names)
  }

  /** The key a config is registered under. */
  function NameOf(c: ProviderConfig): (name: string)
    ensures c.providerName.Some? ==> name == c.providerName.value
    ensures c.providerName.None? ==> name == "default"
  {
    if c.providerName.Some? then c.providerName.value else DefaultName
  }

  /** Evaluates `(FinamPy(provider['access_token']), provider['client_id'])`, left to right. */
  function Open(c: ProviderConfig): (r: Result<Provider>)
    ensures r.Success? <==> c.accessToken.Some? && c.clientId.Some?
    ensures c.accessToken.None? ==> r == Failure(MissingKey("access_token"))
    ensures c.accessToken.Some? && c.clientId.None? ==> r == Failure(MissingKey("client_id"))
    ensures r.Success? ==> r.value.connection == Connection(c.accessToken.value) && r.value.clientId == c.clientId.value
  {
    if c.accessToken.None? then Failure(MissingKey("access_token"))
    else if c.clientId.None? then Failure(MissingKey("client_id"))
    else Success(Provider(Connection(c.accessToken.value), c.clientId.value))
  }

  /** `reg[name] = p`: a new key goes last, an existing key keeps its place and takes the new value. */
  function Assign(reg: Registry, name: string, p: Provider): (r: Registry)
    requires WellFormed(reg)
    ensures WellFormed(r)
    ensures name in r.entries && r.entries[name] == p
    ensures forall k :: k in reg.entries && k != name ==> k in r.entries && r.entries[k] == reg.entries[k]
    ensures name in reg.entries ==> r.names == reg.names
    ensures name !in reg.entries ==> r.names == reg.names + [name]
  {
    if name in reg.entries then Registry(reg.names, reg.entries[name := p])
    else Registry(reg.names + [name], reg.entries[name := p])
  }

  /** The registry after the loop over `configs`, or the first config's KeyError. */
  function Registered(configs: seq<ProviderConfig>): (r: Result<Registry>)
    ensures r.Success? ==> WellFormed(r.value)
    decreases |configs|
  {
    if |configs| == 0 then Success(Registry([], map[]))
    else
      var c := configs[|configs| - 1];
      match Registered(configs[..|configs| - 1])
      case Failure(e) => Failure(e)
      case Success(reg) =>
        match Open(c)
        case Failure(e) => Failure(e)
        case Success(p) => Success(Assign(reg, NameOf(c), p))
  }

  /** Construction's registry: the loop's, provided it is not empty. */
  function Setup(configs: seq<ProviderConfig>): (r: Result<Registry>)
    ensures r.Success? ==> Registered(configs) == r && WellFormed(r.value) && |r.value.names| > 0
    ensures r.Failure? && Registered(configs).Failure? ==> r == Registered(configs)
    ensures r.Failure? && Registered(configs).Success? ==> r.error == NoProviders
  {
    match Registered(configs)
    case Failure(e) => Failure(e)
    case Success(reg) => if |reg.names| == 0 then Failure(NoProviders) else Success(reg)
  }

  /** `list(self.providers.values())[0][0]`: the connection of the first key. */
  function DefaultConnection(reg: Registry): (c: Connection)
    requires WellFormed(reg) && |reg.names| > 0
    ensures exists k :: k in reg.entries && reg.entries[k].connection == c
    ensures reg.names[0] in reg.entries && c == reg.entries[reg.names[0]].connection
  {
    reg.entries[reg.names[0]].connection
  }

  /** A failure in a prefix of the configs is the failure of the whole loop. */
  lemma {:induction false} RegisteredKeepsFailure(configs: seq<ProviderConfig>, n: nat)
    requires n <= |configs|
    requires Registered(configs[..n]).Failure?
    ensures Registered(configs) == Registered(configs[..n])
    decreases |configs| - n
  {
    if n < |configs| {
      var m := |configs| - 1;
      assert configs[..m][..n] == configs[..n];
      RegisteredKeepsFailure(configs[..m], n);
      assert configs[..m] == configs[..|configs| - 1];
    } else {
      assert configs[..n] == configs;
    }
  }

  /** The loop fails with the error of the first config that lacks a key. */
  lemma {:induction false} RegisteredError(configs: seq<ProviderConfig>, i: nat)
    requires i < |configs| && Open(configs[i]).Failure?
    requires forall j :: 0 <= j < i ==> Open(configs[j]).Success?
    ensures Registered(configs) == Failure(Open(configs[i]).error)
  {
    var pre := configs[..i + 1];
    assert pre[..i] == configs[..i];
    RegisteredSucceeds(configs[..i]);
    assert pre[i] == configs[i];
    RegisteredKeepsFailure(configs, i + 1);
  }

  /** The loop succeeds when every config has its keys. */
  lemma {:induction false} RegisteredSucceeds(configs: seq<ProviderConfig>)
    requires forall j :: 0 <= j < |configs| ==> Open(configs[j]).Success?
    ensures Registered(configs).Success?
    decreases |configs|
  {
    if |configs| > 0 {
      RegisteredSucceeds(configs[..|configs| - 1]);
    }
  }

  /** The names the configs are registered under, in list order. */
  function Names(configs: seq<ProviderConfig>): (ns: seq<string>)
    ensures |ns| == |configs|
    ensures forall i :: 0 <= i < |configs| ==> ns[i] == NameOf(configs[i])
  {
    seq(|configs|, i requires 0 <= i < |configs| => NameOf(configs[i]))
  }

  /** The distinct names of a list in order of first appearance: the key order of a dict filled from it. */
  function FirstAppearances(ns: seq<string>): (r: seq<string>)
    ensures forall k :: k in r <==> k in ns
    ensures forall i, j :: 0 <= i < j < |r| ==> r[i] != r[j]
    decreases |ns|
  {
    if |ns| == 0 then []
    else
      var last := ns[|ns| - 1];
      var r := FirstAppearances(ns[..|ns| - 1]);
      assert ns == ns[..|ns| - 1] + [last];
      if last in r then r else r + [last]
  }

  /** One turn of the loop: a successful registry is the prefix's registry with the last config assigned. */
  lemma RegisteredStep(configs: seq<ProviderConfig>)
    requires |configs| > 0 && Registered(configs).Success?
    ensures Registered(configs[..|configs| - 1]).Success?
    ensures Open(configs[|configs| - 1]).Success?
    ensures Registered(configs).value ==
              Assign(Registered(configs[..|configs| - 1]).value, NameOf(configs[|configs| - 1]), Open(configs[|configs| - 1]).value)
    ensures Names(configs[..|configs| - 1]) == Names(configs)[..|configs| - 1]
  {
  }

  /** The registry's key order is the order in which the config names first appear. */
  lemma {:induction false} RegisteredNames(configs: seq<ProviderConfig>)
    requires Registered(configs).Success?
    ensures Registered(configs).value.names == FirstAppearances(Names(configs))
    decreases |configs|
  {
    if |configs| > 0 {
      var m := |configs| - 1;
      var pre := configs[..m];
      RegisteredStep(configs);
      RegisteredNames(pre);
      var before := Registered(pre).value;
      var name := NameOf(configs[m]);
      assert name in before.entries <==> name in before.names;
      assert Names(configs)[m] == name;
    }
  }

  /** The keys are exactly the names of the configs, `'default'` standing for a missing `provider_name`. */
  lemma RegisteredKeys(configs: seq<ProviderConfig>)
    requires Registered(configs).Success?
    ensures forall k :: k in Registered(configs).value.entries <==> k in Names(configs)
  {
    RegisteredNames(configs);
  }

  /** A name given several times holds the provider of its LAST config. */
  lemma {:induction false} RegisteredLastWins(configs: seq<ProviderConfig>, i: nat)
    requires Registered(configs).Success?
    requires i < |configs|
    requires forall j :: i < j < |configs| ==> NameOf(configs[j]) != NameOf(configs[i])
    ensures Open(configs[i]).Success?
    ensures NameOf(configs[i]) in Registered(configs).value.entries
    ensures Registered(configs).value.entries[NameOf(configs[i])] == Open(configs[i]).value
    decreases |configs|
  {
    var m := |configs| - 1;
    var pre := configs[..m];
    RegisteredStep(configs);
    if i < m {
      assert pre[i] == configs[i];
      RegisteredLastWins(pre, i);
    }
  }

  /**
   * Keys are in order of first appearance, so a duplicate keeps the place of
   * its first config: for any two keys, some config names the earlier one
   * before any config names the later one.
   */
  lemma RegisteredOrder(configs: seq<ProviderConfig>)
    requires Registered(configs).Success?
    ensures forall a, b :: 0 <= a < b < |Registered(configs).value.names| ==>
              exists i :: 0 <= i < |configs| && Names(configs)[i] == Registered(configs).value.names[a] &&
                Registered(configs).value.names[b] !in Names(configs)[..i + 1]
  {
    RegisteredNames(configs);
    var ns := Names(configs);
    var keys := FirstAppearances(ns);
    forall a, b | 0 <= a < b < |keys|
      ensures exists i :: 0 <= i < |ns| && ns[i] == keys[a] && keys[b] !in ns[..i + 1]
    {
      var i := AppearsBefore(ns, a, b);
    }
  }

  /** For two distinct names in order of first appearance, a position naming the earlier one before the later one appears. */
  lemma {:induction false} AppearsBefore(ns: seq<string>, a: nat, b: nat) returns (i: nat)
    requires a < b < |FirstAppearances(ns)|
    ensures i < |ns| && ns[i] == FirstAppearances(ns)[a]
    ensures FirstAppearances(ns)[b] !in ns[..i + 1]
    decreases |ns|
  {
    var m := |ns| - 1;
    var pre := ns[..m];
    var before := FirstAppearances(pre);
    var after := FirstAppearances(ns);
    if b < |before| {
      i := AppearsBefore(pre, a, b);
    } else {
      // after[b] is the name added by the last position, new to the prefix
      assert after == before + [ns[m]] && ns[m] !in pre;
      assert before[a] in pre;
      i :| 0 <= i < m && pre[i] == before[a];
      assert pre == pre[..i + 1] + pre[i + 1..];
    }
    assert ns[..i + 1] == pre[..i + 1];
  }

  /** The first key is the first config's name. */
  lemma {:induction false} RegisteredFirstName(configs: seq<ProviderConfig>)
    requires Registered(configs).Success?
    requires |configs| > 0
    ensures |Registered(configs).value.names| > 0
    ensures Registered(configs).value.names[0] == NameOf(configs[0])
    decreases |configs|
  {
    var m := |configs| - 1;
    if m > 0 {
      var pre := configs[..m];
      RegisteredFirstName(pre);
      assert pre[0] == configs[0];
    }
  }

  /** Construction fails exactly on an empty list or a config that lacks a key. */
  lemma SetupFails(configs: seq<ProviderConfig>)
    ensures Setup(configs).Failure? <==>
              |configs| == 0 || exists i :: 0 <= i < |configs| && Open(configs[i]).Failure?
    ensures |configs| == 0 ==> Setup(configs) == Failure(NoProviders)
  {
    if exists i :: 0 <= i < |configs| && Open(configs[i]).Failure? {
      var i := FirstFailure(configs);
      RegisteredError(configs, i);
    } else {
      RegisteredSucceeds(configs);
      if |configs| > 0 {
        RegisteredFirstName(configs);
      }
    }
  }

  /** Position of the first config that lacks a key. */
  ghost function FirstFailure(configs: seq<ProviderConfig>): (i: nat)
    requires exists i :: 0 <= i < |configs| && Open(configs[i]).Failure?
    ensures i < |configs| && Open(configs[i]).Failure?
    ensures forall j :: 0 <= j < i ==> Open(configs[j]).Success?
    decreases |configs|
  {
    if Open(configs[0]).Failure? then 0
    else
      var k := FirstFailure(configs[1..]);
      assert forall j :: 0 < j <= k ==> configs[j] == configs[1..][j - 1];
      k + 1
  }

  /**
   * The default provider is the connection of the first config's name, as
   * registered by the LAST config carrying that name.
   */
  lemma DefaultIsLastOfFirstName(configs: seq<ProviderConfig>, i: nat)
    requires Setup(configs).Success?
    requires i < |configs| && NameOf(configs[i]) == NameOf(configs[0])
    requires forall j :: i < j < |configs| ==> NameOf(configs[j]) != NameOf(configs[0])
    ensures Open(configs[i]).Success?
    ensures DefaultConnection(Setup(configs).value) == Open(configs[i]).value.connection
  {
    RegisteredFirstName(configs);
    RegisteredLastWins(configs, i);
  }
}
