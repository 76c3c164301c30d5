/** The client's station index: ZeroAppConfig.cs maps names, short names and aliases to names, and names to configurations. */
module NameIndex {
  import opened Common

  /** The fields that `Copy` treats differently; `rest` stands for ports, type, state and the base flag. */
  datatype Station = Station(name: string, shortName: string, alias: Option<seq<string>>, rest: int, caption: string)

  /** A dictionary key: the comparer ignores case. */
  type Key = string

  datatype Index = Index(configs: map<Key, Station>, names: map<Key, string>)

  const EMPTY := Index(map[], map[])

  function Aliases(c: Station): seq<string> {
    if c.alias.None? then [] else c.alias.value
  }

  function AliasKeys(l: seq<string>): set<Key> {
    set i | 0 <= i < |l| :: Fold(l[i])
  }

  /** Every key a station answers to. */
  function Keys(c: Station): set<Key> {
    {Fold(c.name), Fold(c.shortName)} + AliasKeys(Aliases(c))
  }

  lemma AliasKeysStep(l: seq<string>, i: nat)
    requires i < |l|
    ensures AliasKeys(l[..i + 1]) == AliasKeys(l[..i]) + {Fold(l[i])}
  {
    hide Fold;
    var p := l[..i + 1];
    assert forall j | 0 <= j < i :: p[j] == l[..i][j];
    assert p[i] == l[i];
    forall k
      ensures k in AliasKeys(p) <==> k in AliasKeys(l[..i]) + {Fold(l[i])}
    {
      if j :| 0 <= j < i && Fold(l[..i][j]) == k {
        assert Fold(p[j]) == k;
      }
      if k == Fold(l[i]) {
        assert Fold(p[i]) == k;
      }
    }
  }

  // ---------- The operations ----------

  /** `StationConfig.Copy`: the short name and the caption stay. */
  function Copied(was: Station, src: Station): Station {
    was.(name := src.name, alias := src.alias, rest := src.rest)
  }

  function Added(s: Index, c: Station): Index {
    var key := Fold(c.name);
    Index(s.configs[key := if key in s.configs then Copied(s.configs[key], c) else c],
          Named(s.names, Keys(c), c.name))
  }

  /** The name map with these keys set to one name. */
  function Named(names: map<Key, string>, keys: set<Key>, name: string): map<Key, string> {
    map k | k in names.Keys + keys :: if k in keys then name else names[k]
  }

  lemma NoAliases()
    ensures AliasKeys([]) == {}
  {
  }

  lemma NamedOne(names: map<Key, string>, k: Key, name: string)
    ensures names[k := name] == Named(names, {k}, name) && Named(names, {}, name) == names
  {
  }

  lemma KeysSplit(c: Station)
    ensures Keys(c) == {Fold(c.name)} + {Fold(c.shortName)} + AliasKeys(Aliases(c))
    ensures c.alias.None? ==> AliasKeys(Aliases(c)) == {}
  {
    hide Fold;
  }

  lemma NamedThrice(names: map<Key, string>, a: set<Key>, b: set<Key>, c: set<Key>, name: string)
    ensures Named(Named(Named(names, a, name), b, name), c, name) == Named(names, a + b + c, name)
    ensures c == {} ==> Named(Named(names, a, name), b, name) == Named(names, a + b + c, name)
  {
    NamedTwice(names, a, b, name);
    NamedTwice(names, a + b, c, name);
    assert c == {} ==> a + b + c == a + b;
  }

  lemma NamedTwice(names: map<Key, string>, a: set<Key>, b: set<Key>, name: string)
    ensures Named(Named(names, a, name), b, name) == Named(names, a + b, name)
  {
  }

  function Removed(s: Index, c: Station): Index {
    Index(s.configs - {Fold(c.name)}, s.names - Keys(c))
  }

  /** The indexer: first the name map, then the configurations. */
  function Lookup(s: Index, key: string): Option<Station> {
    if Fold(key) !in s.names then None
    else
      var name := Fold(s.names[Fold(key)]);
      if name in s.configs then Some(s.configs[name]) else None
  }

  class AppConfig {
    var configs: map<Key, Station>
    var names: map<Key, string>

    constructor ()
      ensures Value() == EMPTY
    {
      configs, names := map[], map[];
    }

    function Value(): Index
      reads this
    {
      Index(configs, names)
    }

    method PutName(key: Key, name: string)
      modifies `names
      ensures names == Named(old(names), {key}, name)
    {
      names := names[key := name];
    }

    method PutConfig(c: Station)
      modifies `configs
      ensures configs == Added(old(Value()), c).configs
    {
      if Fold(c.name) in configs {
        configs := configs[Fold(c.name) := Copied(configs[Fold(c.name)], c)];
      } else {
        configs := configs[Fold(c.name) := c];
      }
    }

    method AddStation(c: Station)
      modifies this
      ensures Value() == Added(old(Value()), c)
    {
      hide Fold, AliasKeys, Named, Copied;
      ghost var before := names;
      var a, b := Fold(c.name), Fold(c.shortName);
      NamedThrice(before, {a}, {b}, AliasKeys(Aliases(c)), c.name);
      KeysSplit(c);
      PutConfig(c);
      PutName(a, c.name);
      PutName(b, c.name);
      if c.alias.Some? {
        AddAliases(c.alias.value, c.name);
      }
    }

    method AddAliases(l: seq<string>, name: string)
      modifies `names
      ensures names == Named(old(names), AliasKeys(l), name)
    {
      NoAliases();
      NamedOne(names, "", name);
      var i := 0;
      assert l[..0] == [];
      while i < |l|
        invariant 0 <= i <= |l|
        invariant names == Named(old(names), AliasKeys(l[..i]), name)
      {
        hide Fold, AliasKeys, Named;
        AliasKeysStep(l, i);
        NamedOne(names, Fold(l[i]), name);
        NamedTwice(old(names), AliasKeys(l[..i]), {Fold(l[i])}, name);
        names := names[Fold(l[i]) := name];
        i := i + 1;
      }
      assert l[..i] == l;
    }

    method Remove(c: Station)
      modifies this
      ensures Value() == Removed(old(Value()), c)
    {
      hide Fold, AliasKeys;
      configs := configs - {Fold(c.name)};
      names := names - {Fold(c.name)};
      names := names - {Fold(c.shortName)};
      if c.alias.None? {
        NoAliases();
        return;
      }
      RemoveAliases(c.alias.value);
    }

    method RemoveAliases(l: seq<string>)
      modifies `names
      ensures names == old(names) - AliasKeys(l)
    {
      NoAliases();
      var i := 0;
      assert l[..0] == [];
      while i < |l|
        invariant 0 <= i <= |l|
        invariant names == old(names) - AliasKeys(l[..i])
      {
        AliasKeysStep(l, i);
        hide Fold, AliasKeys;
        names := names - {Fold(l[i])};
        i := i + 1;
      }
      assert l[..i] == l;
    }

    method Find(key: string) returns (r: Option<Station>)
      ensures r == Lookup(Value(), key)
    {
      if Fold(key) !in names {
        return None;
      }
      var name := Fold(names[Fold(key)]);
      r := if name in configs then Some(configs[name]) else None;
    }
  }

  // ---------- The owner of a key ----------

  /** What a search through the stations finds: `c` is one of them and answers to the key. */
  predicate Owner(s: Index, key: string, c: Station) {
    exists n :: n in s.configs && s.configs[n] == c && Fold(key) in Keys(c)
  }

  /** Lookup finds exactly the owner, and fails exactly when there is none. */
  ghost predicate Agrees(s: Index) {
    forall key: string ::
      match Lookup(s, key)
      case Some(c) => Owner(s, key, c) && forall d | Owner(s, key, d) :: d == c
      case None => forall n | n in s.configs :: Fold(key) !in Keys(s.configs[n])
  }

  ghost predicate Placed(s: Index) {
    forall n | n in s.configs :: n == Fold(s.configs[n].name)
  }

  ghost predicate Apart(s: Index) {
    forall n, m | n in s.configs && m in s.configs && n != m :: Keys(s.configs[n]) !! Keys(s.configs[m])
  }

  ghost predicate Indexed(s: Index) {
    forall n, k | n in s.configs && k in Keys(s.configs[n]) :: k in s.names && Fold(s.names[k]) == n
  }

  ghost predicate NoStray(s: Index) {
    forall k | k in s.names :: Fold(s.names[k]) in s.configs && k in Keys(s.configs[Fold(s.names[k])])
  }

  /** Stations are stored under their names, no two answer to one key, and the name map knows exactly their keys. */
  ghost predicate Valid(s: Index) {
    Placed(s) && Apart(s) && Indexed(s) && NoStray(s)
  }

  lemma ValidAgrees(s: Index)
    requires Valid(s)
    ensures Agrees(s)
  {
    hide Keys, Fold;
    forall key: string
      ensures match Lookup(s, key)
              case Some(c) => Owner(s, key, c) && forall d | Owner(s, key, d) :: d == c
              case None => forall n | n in s.configs :: Fold(key) !in Keys(s.configs[n])
    {
      if Lookup(s, key).Some? {
        var n := Fold(s.names[Fold(key)]);
        assert n in s.configs && s.configs[n] == Lookup(s, key).value;
      }
    }
  }

  /** Keys of a new station collide with nobody's; an update keeps the short name and the aliases. */
  ghost predicate MayAdd(s: Index, c: Station) {
    var key := Fold(c.name);
    && (forall n | n in s.configs && n != key :: Keys(c) !! Keys(s.configs[n]))
    && (key in s.configs ==> Keys(c) == Keys(s.configs[key]) && Fold(c.shortName) == Fold(s.configs[key].shortName))
  }

  /** A station is removed by its own keys, or is not there at all. */
  ghost predicate MayRemove(s: Index, c: Station) {
    var key := Fold(c.name);
    if key in s.configs then Keys(c) == Keys(s.configs[key]) else forall k | k in Keys(c) :: k !in s.names
  }

  /** A station answers to its name, its short name and its aliases, in any case, and to nothing else. */
  lemma AnswersIff(c: Station, key: string)
    ensures Fold(key) in Keys(c) <==>
            || EqualUpToCase(c.name, key) || EqualUpToCase(c.shortName, key)
            || (c.alias.Some? && exists i :: 0 <= i < |c.alias.value| && EqualUpToCase(c.alias.value[i], key))
  {
    FoldIff(c.name, key);
    FoldIff(c.shortName, key);
    forall i | 0 <= i < |Aliases(c)|
      ensures Fold(Aliases(c)[i]) == Fold(key) <==> EqualUpToCase(Aliases(c)[i], key)
    {
      FoldIff(Aliases(c)[i], key);
    }
    hide Fold, EqualUpToCase;
  }

  /**
    Adding takes a new station as it is; a known one takes over all but short name and caption. No other station changes,
    every key of the given one leads to its name, and every other key where it led before.
   */
  lemma AddEffect(s: Index, c: Station)
    ensures var t, key := Added(s, c), Fold(c.name);
      && t.configs.Keys == s.configs.Keys + {key} && (forall n | n in s.configs && n != key :: t.configs[n] == s.configs[n])
      && (key !in s.configs ==> t.configs[key] == c)
      && (key in s.configs ==> var was, now := s.configs[key], t.configs[key];
            && now.name == c.name && now.alias == c.alias && now.rest == c.rest
            && now.shortName == was.shortName && now.caption == was.caption)
      && t.names.Keys == s.names.Keys + Keys(c)
      && (forall k | k in t.names :: t.names[k] == if k in Keys(c) then c.name else s.names[k])
  {
    hide Fold, Keys;
  }

  lemma CopiedKeys(a: Station, c: Station)
    requires Fold(c.shortName) == Fold(a.shortName)
    ensures Keys(Copied(a, c)) == Keys(c)
  {
    hide AliasKeys;
  }

  /** What `Added` does to the configurations. */
  predicate Replaces(s: Index, t: Index, key: Key, c: Station) {
    t.configs == s.configs[key := c]
  }

  lemma AddIndexed(s: Index, c: Station, stored: Station)
    requires Indexed(s) && NoStray(s) && Keys(stored) == Keys(c) && Replaces(s, Added(s, c), Fold(c.name), stored)
    requires forall n | n in s.configs && n != Fold(c.name) :: Keys(c) !! Keys(s.configs[n])
    requires Fold(c.name) in s.configs ==> Keys(s.configs[Fold(c.name)]) == Keys(c)
    ensures Indexed(Added(s, c)) && NoStray(Added(s, c))
  {
    hide Keys, Fold, Copied;
  }

  lemma AddApart(s: Index, t: Index, key: Key, c: Station)
    requires Placed(s) && Apart(s) && Replaces(s, t, key, c) && key == Fold(c.name)
    requires forall n | n in s.configs && n != key :: Keys(c) !! Keys(s.configs[n])
    ensures Placed(t) && Apart(t)
  {
    hide Keys, Fold;
  }

  lemma AddKeepsValid(s: Index, c: Station)
    requires Valid(s) && MayAdd(s, c)
    ensures Valid(Added(s, c))
  {
    hide Keys, Fold, Apart, Placed, Indexed, NoStray;
    var key := Fold(c.name);
    var stored := if key in s.configs then Copied(s.configs[key], c) else c;
    if key in s.configs {
      CopiedKeys(s.configs[key], c);
    }
    AddIndexed(s, c, stored);
    AddApart(s, Added(s, c), key, stored);
  }

  lemma RemoveSimple(s: Index, c: Station)
    requires Placed(s) && Apart(s)
    ensures Placed(Removed(s, c)) && Apart(Removed(s, c))
  {
    hide Keys, Fold;
  }

  lemma RemoveIndexed(s: Index, c: Station)
    requires Valid(s) && MayRemove(s, c)
    ensures Indexed(Removed(s, c)) && NoStray(Removed(s, c))
  {
    hide Keys, Fold;
  }

  lemma RemoveKeepsValid(s: Index, c: Station)
    requires Valid(s) && MayRemove(s, c)
    ensures Valid(Removed(s, c))
  {
    RemoveSimple(s, c);
    RemoveIndexed(s, c);
    hide Apart, Placed, Indexed, NoStray;
  }

  // ---------- Runs ----------

  datatype Op = Add(c: Station) | Remove(c: Station)

  function Step(s: Index, op: Op): Index {
    match op
    case Add(c) => Added(s, c)
    case Remove(c) => Removed(s, c)
  }

  ghost predicate May(s: Index, op: Op) {
    match op
    case Add(c) => MayAdd(s, c)
    case Remove(c) => MayRemove(s, c)
  }

  ghost predicate AllMay(s: Index, ops: seq<Op>)
    decreases |ops|
  {
    ops == [] || (May(s, ops[0]) && AllMay(Step(s, ops[0]), ops[1..]))
  }

  function Run(s: Index, ops: seq<Op>): Index
    decreases |ops|
  {
    if ops == [] then s else Run(Step(s, ops[0]), ops[1..])
  }

  /** After every sequence of adds and removes whose keys do not collide, the lookup agrees with a search for the owner. */
  lemma {:induction false} RunAgrees(s: Index, ops: seq<Op>)
    requires Valid(s) && AllMay(s, ops)
    ensures Valid(Run(s, ops)) && Agrees(Run(s, ops))
    decreases |ops|
  {
    hide Valid, Agrees, MayAdd, MayRemove, Added, Removed;
    if ops == [] {
      ValidAgrees(s);
    } else {
      match ops[0] {
        case Add(c) => AddKeepsValid(s, c);
        case Remove(c) => RemoveKeepsValid(s, c);
      }
      RunAgrees(Step(s, ops[0]), ops[1..]);
    }
  }

  lemma EmptyIsValid()
    ensures Valid(EMPTY)
  {
  }

  /** The same from the empty index. */
  lemma IndexAgrees(ops: seq<Op>)
    requires AllMay(EMPTY, ops)
    ensures Agrees(Run(EMPTY, ops))
  {
    EmptyIsValid();
    RunAgrees(EMPTY, ops);
  }

  /** An update whose keys collide with nobody's. */
  lemma UpdateAgreesIff(s: Index, c: Station)
    requires Valid(s) && Fold(c.name) in s.configs
    requires forall n | n in s.configs && n != Fold(c.name) :: Keys(c) !! Keys(s.configs[n])
    ensures Agrees(Added(s, c)) <==> Keys(s.configs[Fold(c.name)]) + Keys(c) == Keys(Copied(s.configs[Fold(c.name)], c))
  {
    hide Keys, Fold, Apart, Indexed, NoStray, Agrees;
    var was := s.configs[Fold(c.name)];
    var now := Copied(was, c);
    CopiedWithin(was, c);
    if Keys(was) + Keys(c) == Keys(now) {
      UpdateValid(s, c);
      ValidAgrees(Added(s, c));
    } else {
      var k: Key :| k in Keys(was) + Keys(c) && k !in Keys(now);
      LeftOver(s, c, k);
    }
  }

  lemma CopiedWithin(a: Station, c: Station)
    requires Fold(a.name) == Fold(c.name)
    ensures Keys(Copied(a, c)) <= Keys(a) + Keys(c)
  {
    hide AliasKeys;
  }

  lemma UpdateIndexed(s: Index, c: Station, stored: Station)
    requires Indexed(s) && NoStray(s) && Replaces(s, Added(s, c), Fold(c.name), stored) && Fold(c.name) in s.configs
    requires forall n | n in s.configs && n != Fold(c.name) :: Keys(c) !! Keys(s.configs[n])
    requires Keys(s.configs[Fold(c.name)]) + Keys(c) == Keys(stored)
    ensures Indexed(Added(s, c)) && NoStray(Added(s, c))
  {
    hide Keys, Fold, Copied;
  }

  lemma UpdateValid(s: Index, c: Station)
    requires Valid(s) && Fold(c.name) in s.configs
    requires forall n | n in s.configs && n != Fold(c.name) :: Keys(c) !! Keys(s.configs[n])
    requires Keys(s.configs[Fold(c.name)]) + Keys(c) == Keys(Copied(s.configs[Fold(c.name)], c))
    ensures Valid(Added(s, c))
  {
    hide Keys, Fold, Indexed, NoStray;
    var stored := Copied(s.configs[Fold(c.name)], c);
    UpdateIndexed(s, c, stored);
    AddApart(s, Added(s, c), Fold(c.name), stored);
  }

  /** Keys are folded already. */
  lemma FoldTwice(x: string)
    ensures Fold(Fold(x)) == Fold(x)
  {
  }

  lemma KeysAreFolded(c: Station, k: Key)
    requires k in Keys(c)
    ensures Fold(k) == k
  {
    FoldTwice(c.name);
    FoldTwice(c.shortName);
    if i :| 0 <= i < |Aliases(c)| && k == Fold(Aliases(c)[i]) {
      FoldTwice(Aliases(c)[i]);
    }
  }

  lemma LeftOver(s: Index, c: Station, k: Key)
    requires Valid(s) && Fold(c.name) in s.configs
    requires k in Keys(s.configs[Fold(c.name)]) + Keys(c) && k !in Keys(Copied(s.configs[Fold(c.name)], c))
    ensures !Agrees(Added(s, c))
  {
    var key := Fold(c.name);
    var t := Added(s, c);
    if k in Keys(c) {
      KeysAreFolded(c, k);
    } else {
      KeysAreFolded(s.configs[key], k);
    }
    hide Keys, Fold, Copied;
    assert Lookup(t, k) == Some(t.configs[key]);
    assert !Owner(t, k, t.configs[key]);
  }

  lemma SharedKey(s: Index, c: Station, n: Key, k: Key)
    requires Valid(s) && n in s.configs && n != Fold(c.name) && k in Keys(c) && k in Keys(s.configs[n])
    ensures !Agrees(Added(s, c))
  {
    KeysAreFolded(c, k);
    hide Keys, Fold, Indexed, NoStray, Apart;
    var t, key := Added(s, c), Fold(c.name);
    assert Lookup(t, k) == Some(t.configs[key]);
    assert Fold(t.configs[key].name) == key && Fold(t.configs[n].name) == n;
    assert Owner(t, k, t.configs[n]);
  }

  /**
    Adding or updating a station leaves the lookup right exactly when none of its keys belongs to another station and, for
    an update, no key is left over: the old ones and the new ones together are those of the stored station, whose short
    name is not copied.
   */
  lemma AddAgreesIff(s: Index, c: Station)
    requires Valid(s)
    ensures Agrees(Added(s, c)) <==>
            && (forall n | n in s.configs && n != Fold(c.name) :: Keys(c) !! Keys(s.configs[n]))
            && (Fold(c.name) in s.configs ==>
                  Keys(s.configs[Fold(c.name)]) + Keys(c) == Keys(Copied(s.configs[Fold(c.name)], c)))
  {
    hide Keys, Fold, Agrees, Added, Copied, Placed, Apart, Indexed, NoStray;
    if n :| n in s.configs && n != Fold(c.name) && !(Keys(c) !! Keys(s.configs[n])) {
      var k: Key :| k in Keys(c) && k in Keys(s.configs[n]);
      SharedKey(s, c, n, k);
    } else if Fold(c.name) in s.configs {
      UpdateAgreesIff(s, c);
    } else {
      AddKeepsValid(s, c);
      ValidAgrees(Added(s, c));
    }
  }

  /**
    A removal leaves the lookup right exactly when none of the given keys belongs to another station. Keys of the removed
    station that are not among the given ones stay in the name map and lead nowhere.
   */
  lemma RemoveAgreesIff(s: Index, c: Station)
    requires Valid(s)
    ensures Agrees(Removed(s, c)) <==> forall n | n in s.configs && n != Fold(c.name) :: Keys(c) !! Keys(s.configs[n])
  {
    hide Keys, Fold, Agrees;
    if n :| n in s.configs && n != Fold(c.name) && !(Keys(c) !! Keys(s.configs[n])) {
      var k :| k in Keys(c) && k in Keys(s.configs[n]);
      TakenKey(s, c, n, k);
    } else {
      OwnKeysRemoved(s, c);
    }
  }

  lemma TakenKey(s: Index, c: Station, n: Key, k: Key)
    requires Valid(s) && n in s.configs && n != Fold(c.name) && k in Keys(c) && k in Keys(s.configs[n])
    ensures !Agrees(Removed(s, c))
  {
    KeysAreFolded(c, k);
    hide Keys, Fold;
    var t := Removed(s, c);
    assert Lookup(t, k).None? && n in t.configs && Fold(k) in Keys(t.configs[n]);
  }

  lemma OwnKeysRemoved(s: Index, c: Station)
    requires Valid(s) && forall n | n in s.configs && n != Fold(c.name) :: Keys(c) !! Keys(s.configs[n])
    ensures Agrees(Removed(s, c))
  {
    hide Keys, Fold;
    var t := Removed(s, c);
    forall key: string
      ensures match Lookup(t, key)
              case Some(d) => Owner(t, key, d) && forall e | Owner(t, key, e) :: e == d
              case None => forall n | n in t.configs :: Fold(key) !in Keys(t.configs[n])
    {
      if Lookup(t, key).Some? {
        var n := Fold(t.names[Fold(key)]);
        assert n in t.configs && t.configs[n] == Lookup(t, key).value;
      }
    }
  }
}
