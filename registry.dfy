/**
 * The schema registry (`BlocksManager`): a table from type name to schema
 * that remembers registration order, and the parent/child acceptance rule.
 * The pattern cache of the source is unobservable and is not modelled.
 */
module Registry {
  import opened Wrappers
  import opened Types
  import opened Lists
  import Glob

  /** The registry's contents: the `Map` and the order of its keys. */
  datatype Table = Table(schemas: map<string, BlockSchema>, order: seq<string>)

  /** The key order lists exactly the registered types, each once. */
  ghost predicate Consistent(tab: Table)
  {
    (forall t :: t in tab.schemas <==> t in tab.order) && NoDuplicates(tab.order)
  }

  /** `get(type)`: a schema exactly for the types `has` reports, which are those in the key order. */
  function Get(tab: Table, t: string): (r: Option<BlockSchema>)
    ensures r.Some? <==> Has(tab, t)
    ensures Consistent(tab) ==> (r.Some? <==> t in tab.order)
  {
    if t in tab.schemas then Some(tab.schemas[t]) else None
  }

  /** `has(type)`: on a consistent table, exactly the types listed in the key order. */
  predicate Has(tab: Table, t: string)
    ensures Consistent(tab) ==> (Has(tab, t) <==> t in tab.order)
  {
    t in tab.schemas
  }

  /** `register(type, schema)`: fails on a type that is already present. */
  function Registered(tab: Table, t: string, s: BlockSchema): (r: Result<Table, Error>)
    ensures r.Err? <==> Has(tab, t)
    ensures r.Err? ==> r.error == AlreadyRegistered(t)
    ensures r.Ok? ==> Has(r.value, t) && Get(r.value, t) == Some(s)
    ensures r.Ok? ==> forall u :: u != t ==> Get(r.value, u) == Get(tab, u)
    ensures r.Ok? ==> r.value.order == tab.order + [t]
    ensures Consistent(tab) && r.Ok? ==> Consistent(r.value)
  {
    if t in tab.schemas then Err(AlreadyRegistered(t))
    else Ok(Table(tab.schemas[t := s], tab.order + [t]))
  }

  /** `unregister(type)`: the flag says whether the type was present. */
  function Unregistered(tab: Table, t: string): (r: (Table, bool))
    ensures r.1 == Has(tab, t)
    ensures !Has(r.0, t)
    ensures forall u :: u != t ==> Get(r.0, u) == Get(tab, u)
    ensures Consistent(tab) ==> Consistent(r.0) && forall u :: u in r.0.order <==> u in tab.order && u != t
  {
    if t in tab.schemas then (Table(tab.schemas - {t}, Without(tab.order, t)), true)
    else (tab, false)
  }

  /**
   * `registerMany(entries)`: registers in entry order and stops at the first
   * failure, keeping the registrations made before it.
   */
  function RegisteredAll(tab: Table, entries: seq<(string, BlockSchema)>): (r: (Table, Option<Error>))
    decreases |entries|
  {
    if entries == [] then (tab, None)
    else match Registered(tab, entries[0].0, entries[0].1)
      case Err(e) => (tab, Some(e))
      case Ok(next) => RegisteredAll(next, entries[1..])
  }

  /** The types of a list of entries, in order. */
  function TypesOf(entries: seq<(string, BlockSchema)>): seq<string>
  {
    seq(|entries|, i requires 0 <= i < |entries| => entries[i].0)
  }

  /** A registration batch keeps the table consistent. */
  lemma {:induction false} RegisteredAllConsistent(tab: Table, entries: seq<(string, BlockSchema)>)
    requires Consistent(tab)
    ensures Consistent(RegisteredAll(tab, entries).0)
    decreases |entries|
  {
    if entries != [] {
      match Registered(tab, entries[0].0, entries[0].1)
      case Err(_) =>
      case Ok(next) => RegisteredAllConsistent(next, entries[1..]);
    }
  }

  /**
   * A batch that succeeds named only types that were not registered, each
   * once; one that fails named an already registered type or repeated one.
   */
  lemma {:induction false} RegisteredAllFresh(tab: Table, entries: seq<(string, BlockSchema)>)
    ensures RegisteredAll(tab, entries).1.None? <==> Fresh(tab, entries)
    decreases |entries|
  {
    if entries != [] {
      match Registered(tab, entries[0].0, entries[0].1)
      case Err(_) =>
        assert Has(tab, entries[0].0);
      case Ok(next) =>
        RegisteredAllFresh(next, entries[1..]);
        FreshAfterFirst(tab, next, entries);
        FreshBeforeFirst(tab, next, entries);
    }
  }

  /** Every type of the batch is unregistered in `tab`, and none is named twice. */
  ghost predicate Fresh(tab: Table, entries: seq<(string, BlockSchema)>)
  {
    (forall i :: 0 <= i < |entries| ==> !Has(tab, entries[i].0)) && NoDuplicates(TypesOf(entries))
  }

  /** A fresh batch stays fresh for its tail once its first type is registered. */
  lemma FreshAfterFirst(tab: Table, next: Table, entries: seq<(string, BlockSchema)>)
    requires entries != [] && Registered(tab, entries[0].0, entries[0].1) == Ok(next)
    ensures Fresh(tab, entries) ==> Fresh(next, entries[1..])
  {
    var rest := entries[1..];
    if Fresh(tab, entries) {
      forall i | 0 <= i < |rest| ensures !Has(next, rest[i].0) {
        assert rest[i] == entries[i + 1];
        assert TypesOf(entries)[0] != TypesOf(entries)[i + 1];
      }
      forall i, j | 0 <= i < j < |rest| ensures TypesOf(rest)[i] != TypesOf(rest)[j] {
        assert TypesOf(entries)[i + 1] != TypesOf(entries)[j + 1];
      }
    }
  }

  /** A tail fresh after the first registration makes the whole batch fresh. */
  lemma FreshBeforeFirst(tab: Table, next: Table, entries: seq<(string, BlockSchema)>)
    requires entries != [] && Registered(tab, entries[0].0, entries[0].1) == Ok(next)
    ensures Fresh(next, entries[1..]) ==> Fresh(tab, entries)
  {
    var rest := entries[1..];
    if Fresh(next, rest) {
      forall i | 0 <= i < |entries| ensures !Has(tab, entries[i].0) {
        if i > 0 { assert entries[i] == rest[i - 1]; }
      }
      forall i, j | 0 <= i < j < |entries| ensures TypesOf(entries)[i] != TypesOf(entries)[j] {
        assert entries[j] == rest[j - 1] && !Has(next, rest[j - 1].0);
        if i > 0 {
          assert entries[i] == rest[i - 1];
          assert TypesOf(rest)[i - 1] != TypesOf(rest)[j - 1];
        }
      }
    }
  }

  /** A batch that succeeds appends its types to the key order, in entry order. */
  lemma {:induction false} RegisteredAllOrder(tab: Table, entries: seq<(string, BlockSchema)>)
    requires RegisteredAll(tab, entries).1.None?
    ensures RegisteredAll(tab, entries).0.order == tab.order + TypesOf(entries)
    decreases |entries|
  {
    if entries != [] {
      var rest := entries[1..];
      assert TypesOf(entries) == [entries[0].0] + TypesOf(rest);
      var next := Table(tab.schemas[entries[0].0 := entries[0].1], tab.order + [entries[0].0]);
      assert Registered(tab, entries[0].0, entries[0].1) == Ok(next);
      assert RegisteredAll(tab, entries) == RegisteredAll(next, rest);
      RegisteredAllOrder(next, rest);
      assert RegisteredAll(next, rest).0.order == next.order + TypesOf(rest);
      assert tab.order + TypesOf(entries) == next.order + TypesOf(rest);
    }
  }

  /** A batch that succeeds maps each of its types to its schema. */
  lemma {:induction false} RegisteredAllMaps(tab: Table, entries: seq<(string, BlockSchema)>)
    requires RegisteredAll(tab, entries).1.None?
    ensures forall i :: 0 <= i < |entries| ==> Get(RegisteredAll(tab, entries).0, entries[i].0) == Some(entries[i].1)
    decreases |entries|
  {
    if entries != [] {
      var t := entries[0].0;
      var rest := entries[1..];
      var next := Registered(tab, t, entries[0].1).value;
      var final := RegisteredAll(next, rest);
      assert RegisteredAll(tab, entries) == final;
      RegisteredAllMaps(next, rest);
      RegisteredAllFresh(next, rest);
      assert t !in TypesOf(rest);
      LaterEntriesKeep(next, rest, t);
      forall i | 0 <= i < |entries|
        ensures Get(final.0, entries[i].0) == Some(entries[i].1)
      {
        if i > 0 { assert entries[i] == rest[i - 1]; }
      }
    }
  }

  /** A type not named again in a batch keeps its schema through it. */
  lemma {:induction false} LaterEntriesKeep(tab: Table, entries: seq<(string, BlockSchema)>, t: string)
    requires t !in TypesOf(entries)
    ensures Get(RegisteredAll(tab, entries).0, t) == Get(tab, t)
    decreases |entries|
  {
    if entries != [] {
      assert TypesOf(entries) == [entries[0].0] + TypesOf(entries[1..]);
      match Registered(tab, entries[0].0, entries[0].1)
      case Err(_) =>
      case Ok(next) => LaterEntriesKeep(next, entries[1..], t);
    }
  }

  /** `matchesPattern`: the lone `*` short-cut agrees with the glob reading. */
  function MatchesPattern(childType: string, pattern: string): (r: bool)
    ensures r == Glob.Matches(pattern, childType)
  {
    if pattern == "*" then
      Glob.StarMatchesAll(childType);
      true
    else Glob.Matches(pattern, childType)
  }

  /** `accepts.some(pattern => matchesPattern(childType, pattern))`. */
  predicate SomePatternMatches(accepts: seq<string>, childType: string)
  {
    exists i :: 0 <= i < |accepts| && MatchesPattern(childType, accepts[i])
  }

  /** Is the child type registered with `private: true`? */
  predicate IsPrivate(tab: Table, childType: string)
  {
    Get(tab, childType).Some? && Get(tab, childType).value.isPrivate
  }

  /**
   * `canBeChild(childType, parentType)`: false for an unregistered parent
   * or one without an `accepts` list; a private child must be listed by its
   * exact name; any other child (registered or not) must match a pattern.
   */
  function CanBeChild(tab: Table, childType: string, parentType: string): (r: bool)
    ensures r ==> Has(tab, parentType) && tab.schemas[parentType].accepts.Some?
    ensures r && IsPrivate(tab, childType) ==> childType in tab.schemas[parentType].accepts.value
    ensures (Has(tab, parentType) && tab.schemas[parentType].accepts.Some? && IsPrivate(tab, childType) &&
             childType in tab.schemas[parentType].accepts.value) ==> r
    ensures Has(tab, parentType) && tab.schemas[parentType].accepts.Some? && !IsPrivate(tab, childType) ==>
            (r <==> exists p :: p in tab.schemas[parentType].accepts.value && Glob.Matches(p, childType))
  {
    match Get(tab, parentType)
    case None => false
    case Some(parent) =>
      if parent.accepts.None? then false
      else if IsPrivate(tab, childType) then childType in parent.accepts.value
      else
        var accepts := parent.accepts.value;
        assert SomePatternMatches(accepts, childType) <==> exists p :: p in accepts && Glob.Matches(p, childType) by {
          if SomePatternMatches(accepts, childType) {
            var i :| 0 <= i < |accepts| && MatchesPattern(childType, accepts[i]);
            assert accepts[i] in accepts;
          }
        }
        SomePatternMatches(accepts, childType)
  }

  /** A private child is refused under a parent that accepts `*` but does not name it. */
  lemma PrivateChildIgnoresWildcard(tab: Table, childType: string, parentType: string)
    requires IsPrivate(tab, childType)
    requires Has(tab, parentType) && tab.schemas[parentType].accepts.Some?
    requires "*" in tab.schemas[parentType].accepts.value
    requires childType !in tab.schemas[parentType].accepts.value
    ensures !CanBeChild(tab, childType, parentType)
  {
  }

  /** A parent accepting `*` takes every child type that is not private, registered or not. */
  lemma WildcardAcceptsPublic(tab: Table, childType: string, parentType: string)
    requires !IsPrivate(tab, childType)
    requires Has(tab, parentType) && tab.schemas[parentType].accepts.Some?
    requires "*" in tab.schemas[parentType].accepts.value
    ensures CanBeChild(tab, childType, parentType)
  {
    Glob.StarMatchesAll(childType);
  }

  /** The mutable registry; its queries are the functions above applied to `Data()`. */
  class BlocksManager {
    var schemas: map<string, BlockSchema>
    var order: seq<string>

    function Data(): Table
      reads this
    {
      Table(schemas, order)
    }

    ghost predicate Valid()
      reads this
    {
      Consistent(Data())
    }

    constructor()
      ensures Valid() && Data() == Table(map[], [])
    {
      schemas := map[];
      order := [];
    }

    method Register(t: string, s: BlockSchema) returns (r: Result<(), Error>)
      requires Valid()
      modifies this
      ensures Valid()
      ensures Registered(old(Data()), t, s).Ok? ==> r == Ok(()) && Data() == Registered(old(Data()), t, s).value
      ensures Registered(old(Data()), t, s).Err? ==> r == Err(AlreadyRegistered(t)) && Data() == old(Data())
    {
      if t in schemas {
        return Err(AlreadyRegistered(t));
      }
      schemas := schemas[t := s];
      order := order + [t];
      r := Ok(());
    }

    method RegisterMany(entries: seq<(string, BlockSchema)>) returns (r: Option<Error>)
      requires Valid()
      modifies this
      ensures Valid()
      ensures (Data(), r) == RegisteredAll(old(Data()), entries)
    {
      var i := 0;
      while i < |entries|
        invariant 0 <= i <= |entries|
        invariant Valid()
        invariant RegisteredAll(old(Data()), entries) == RegisteredAll(Data(), entries[i..])
      {
        var outcome := Register(entries[i].0, entries[i].1);
        if outcome.Err? {
          assert entries[i..][0] == entries[i];
          return Some(outcome.error);
        }
        assert entries[i..][1..] == entries[i + 1..];
        i := i + 1;
      }
      r := None;
    }

    method Unregister(t: string) returns (removed: bool)
      requires Valid()
      modifies this
      ensures Valid()
      ensures (Data(), removed) == Unregistered(old(Data()), t)
    {
      removed := t in schemas;
      if removed {
        schemas := schemas - {t};
        order := Without(order, t);
      }
    }
  }
}
