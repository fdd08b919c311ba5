/**
 * The MBean server as the agent sees it: a set of registered names (canonical ObjectName strings),
 * queried by domain, with registration refusing a name that is already taken and unregistration
 * that may cascade to dependent MBeans or be refused by the MBean itself.
 */
module MBeanServers {
  import opened Wrappers
  import opened Naming

  /** queryNames("<domain>:*"): the registered names in `domain`. */
  function QueryNames(names: set<string>, domain: string): set<string> {
    set n | n in names && DomainOf(n) == Some(domain)
  }

  /** The names that go away together with `name` (MBeans that unregister their dependents). */
  function Cascade(dependents: map<string, set<string>>, name: string): set<string> {
    if name in dependents then dependents[name] else {}
  }

  /**
   * unregisterMBean: a name that is not registered (InstanceNotFoundException) or whose MBean
   * refuses to go (MBeanRegistrationException) leaves the server as it was; otherwise the name
   * and its cascade are removed.
   */
  function Unregistered(names: set<string>, dependents: map<string, set<string>>, vetoed: set<string>,
                        name: string): set<string>
  {
    if name !in names || name in vetoed then names else names - {name} - Cascade(dependents, name)
  }

  /** A cascade stays inside the domain of the MBean that triggers it. */
  ghost predicate CascadesStayInDomain(dependents: map<string, set<string>>) {
    forall n, m :: n in dependents && m in dependents[n] ==> DomainOf(m) == DomainOf(n)
  }

  /**
   * Every name outside `domain` that went between `before` and `after` went as a dependent of a
   * name of the domain that went too.
   */
  ghost predicate OutsideGoneByCascade(before: set<string>, after: set<string>,
                                       dependents: map<string, set<string>>, domain: string)
  {
    forall n :: n in before && n !in after && DomainOf(n) != Some(domain) ==>
      exists m :: m in QueryNames(before, domain) && m !in after && n in Cascade(dependents, m)
  }

  /** When no cascade leaves its domain, a change confined to one domain by cascades keeps every other name. */
  lemma OutsideKept(before: set<string>, after: set<string>, dependents: map<string, set<string>>, domain: string)
    requires CascadesStayInDomain(dependents)
    requires OutsideGoneByCascade(before, after, dependents, domain)
    ensures forall n :: n in before && DomainOf(n) != Some(domain) ==> n in after
  {
  }

  class MBeanServer {
    var names: set<string>
    /** dependents[n]: the names unregistered as a consequence of unregistering n */
    const dependents: map<string, set<string>>
    /** names whose MBeans refuse to be unregistered */
    const vetoed: set<string>
    /** the process-wide platform server, as opposed to one made by MBeanServerFactory for one agent */
    const shared: bool
    /** set by MBeanServerFactory.releaseMBeanServer */
    var released: bool

    constructor (names: set<string>, dependents: map<string, set<string>>, vetoed: set<string>, shared: bool)
      ensures this.names == names && this.dependents == dependents && this.vetoed == vetoed
      ensures this.shared == shared && !released
    {
      this.names := names;
      this.dependents := dependents;
      this.vetoed := vetoed;
      this.shared := shared;
      released := false;
    }

    function Query(domain: string): set<string>
      reads this
    {
      QueryNames(names, domain)
    }

    /** registerMBean: InstanceAlreadyExistsException when the name is taken, otherwise the name is added. */
    method RegisterMBean(name: string) returns (ok: bool)
      modifies this`names
      ensures ok == (name !in old(names))
      ensures names == old(names) + {name}
    {
      ok := name !in names;
      names := names + {name};
    }

    method UnregisterMBean(name: string) returns (ok: bool)
      modifies this`names
      ensures ok == (name in old(names) && name !in vetoed)
      ensures names == Unregistered(old(names), dependents, vetoed, name)
    {
      ok := name in names && name !in vetoed;
      names := Unregistered(names, dependents, vetoed, name);
    }

    /** MBeanServerFactory.releaseMBeanServer */
    method Release()
      modifies this`released
      ensures released
    {
      released := true;
    }
  }

  /** What a run of registrations leaves: the registered names, and whether every one succeeded. */
  datatype Registration = Registration(names: set<string>, ok: bool)

  /**
   * Registering `todo` in order: a name that getObjectName rejects, or that is already registered,
   * throws and ends the run; the names registered before it stay (there is no rollback).
   */
  function RegisterInOrder(names: set<string>, todo: seq<string>, wellFormed: string -> bool): Registration
    decreases |todo|
  {
    if todo == [] then Registration(names, true)
    else if !wellFormed(todo[0]) || todo[0] in names then Registration(names, false)
    else RegisterInOrder(names + {todo[0]}, todo[1..], wellFormed)
  }

  /** The i-th name of `todo` registers once the ones before it did. */
  predicate Admissible(names: set<string>, todo: seq<string>, wellFormed: string -> bool, i: nat)
    requires i < |todo|
  {
    wellFormed(todo[i]) && todo[i] !in names && todo[i] !in todo[..i]
  }

  function AcceptedFrom(names: set<string>, todo: seq<string>, wellFormed: string -> bool, i: nat): (k: nat)
    requires i <= |todo|
    requires forall j :: 0 <= j < i ==> Admissible(names, todo, wellFormed, j)
    ensures i <= k <= |todo|
    ensures forall j :: 0 <= j < k ==> Admissible(names, todo, wellFormed, j)
    ensures k < |todo| ==> !Admissible(names, todo, wellFormed, k)
    decreases |todo| - i
  {
    if i == |todo| || !Admissible(names, todo, wellFormed, i) then i
    else AcceptedFrom(names, todo, wellFormed, i + 1)
  }

  /** The length of the longest prefix of `todo` that registers: every name in it is admissible, the next is not. */
  function AcceptedPrefix(names: set<string>, todo: seq<string>, wellFormed: string -> bool): (k: nat)
    ensures k <= |todo|
    ensures forall j :: 0 <= j < k ==> Admissible(names, todo, wellFormed, j)
    ensures k < |todo| ==> !Admissible(names, todo, wellFormed, k)
  {
    AcceptedFrom(names, todo, wellFormed, 0)
  }

  function Elems(s: seq<string>): set<string> {
    set x | x in s
  }

  lemma AcceptedPrefixUnique(names: set<string>, todo: seq<string>, wellFormed: string -> bool, k: nat)
    requires k <= |todo|
    requires forall j :: 0 <= j < k ==> Admissible(names, todo, wellFormed, j)
    requires k < |todo| ==> !Admissible(names, todo, wellFormed, k)
    ensures AcceptedPrefix(names, todo, wellFormed) == k
  {
  }

  lemma AdmissibleShift(names: set<string>, todo: seq<string>, wellFormed: string -> bool, i: nat)
    requires 0 < |todo| && i + 1 < |todo|
    requires wellFormed(todo[0]) && todo[0] !in names
    ensures Admissible(names, todo, wellFormed, i + 1)
        <==> Admissible(names + {todo[0]}, todo[1..], wellFormed, i)
  {
    assert todo[..i + 1] == [todo[0]] + todo[1..][..i];
  }

  /**
   * A run registers exactly the admissible prefix of `todo`, and succeeds exactly when that
   * prefix is all of `todo`.
   */
  lemma {:induction false} RegisterInOrderSpec(names: set<string>, todo: seq<string>, wellFormed: string -> bool)
    ensures var k := AcceptedPrefix(names, todo, wellFormed);
      RegisterInOrder(names, todo, wellFormed) == Registration(names + Elems(todo[..k]), k == |todo|)
    decreases |todo|
  {
    var k := AcceptedPrefix(names, todo, wellFormed);
    if todo == [] {
      assert Elems(todo[..k]) == {};
    } else if !wellFormed(todo[0]) || todo[0] in names {
      assert !Admissible(names, todo, wellFormed, 0);
      AcceptedPrefixUnique(names, todo, wellFormed, 0);
      assert Elems(todo[..k]) == {};
    } else {
      var rest := todo[1..];
      var names' := names + {todo[0]};
      RegisterInOrderSpec(names', rest, wellFormed);
      var k' := AcceptedPrefix(names', rest, wellFormed);
      assert Admissible(names, todo, wellFormed, 0);
      forall j | 0 <= j < k' + 1 ensures Admissible(names, todo, wellFormed, j) {
        if j > 0 { AdmissibleShift(names, todo, wellFormed, j - 1); }
      }
      if k' + 1 < |todo| { AdmissibleShift(names, todo, wellFormed, k'); }
      AcceptedPrefixUnique(names, todo, wellFormed, k' + 1);
      assert todo[..k' + 1] == [todo[0]] + rest[..k'];
      assert Elems(todo[..k' + 1]) == {todo[0]} + Elems(rest[..k']);
    }
  }

  /**
   * A run succeeds exactly when every name is well formed, no two names coincide and none is
   * already registered; then it adds all of them.
   */
  lemma RegisterInOrderSucceeds(names: set<string>, todo: seq<string>, wellFormed: string -> bool)
    ensures RegisterInOrder(names, todo, wellFormed).ok <==>
      && (forall i :: 0 <= i < |todo| ==> wellFormed(todo[i]) && todo[i] !in names)
      && (forall i, j :: 0 <= i < j < |todo| ==> todo[i] != todo[j])
    ensures RegisterInOrder(names, todo, wellFormed).ok ==>
      RegisterInOrder(names, todo, wellFormed).names == names + Elems(todo)
  {
    RegisterInOrderSpec(names, todo, wellFormed);
    var k := AcceptedPrefix(names, todo, wellFormed);
    if k == |todo| {
      assert todo[..k] == todo;
      forall i | 0 <= i < |todo| ensures wellFormed(todo[i]) && todo[i] !in names {
        assert Admissible(names, todo, wellFormed, i);
      }
      forall i, j | 0 <= i < j < |todo| ensures todo[i] != todo[j] {
        assert Admissible(names, todo, wellFormed, j);
        assert todo[i] in todo[..j];
      }
    } else {
      assert !Admissible(names, todo, wellFormed, k);
      if todo[k] in todo[..k] {
        var i :| 0 <= i < k && todo[..k][i] == todo[k];
        assert todo[i] == todo[k];
      }
    }
  }

  /** Registration never removes a name, and a refused name leaves the earlier entries as they were. */
  lemma {:induction false} RegisterInOrderKeeps(names: set<string>, todo: seq<string>, wellFormed: string -> bool)
    ensures names <= RegisterInOrder(names, todo, wellFormed).names
    ensures RegisterInOrder(names, todo, wellFormed).names <= names + Elems(todo)
    decreases |todo|
  {
    if todo != [] && wellFormed(todo[0]) && todo[0] !in names {
      RegisterInOrderKeeps(names + {todo[0]}, todo[1..], wellFormed);
      assert Elems(todo) == {todo[0]} + Elems(todo[1..]);
    }
  }

  /** Running two lists one after the other is running their concatenation; a failure stops the second. */
  lemma {:induction false} RegisterInOrderAppend(names: set<string>, a: seq<string>, b: seq<string>,
                                                 wellFormed: string -> bool)
    ensures RegisterInOrder(names, a + b, wellFormed)
         == (var r := RegisterInOrder(names, a, wellFormed);
             if r.ok then RegisterInOrder(r.names, b, wellFormed) else r)
    decreases |a|
  {
    if a != [] {
      assert (a + b)[0] == a[0] && (a + b)[1..] == a[1..] + b;
      if wellFormed(a[0]) && a[0] !in names {
        RegisterInOrderAppend(names + {a[0]}, a[1..], b, wellFormed);
      }
    } else {
      assert a + b == b;
    }
  }

  /**
   * The unregistration loop exactly as the source writes it, for at most `passes` passes: query the
   * domain, stop if nothing is left, otherwise unregister the name the iterator yields first (`pick`),
   * ignore a failure and query again.
   */
  function AsWrittenUnregister(names: set<string>, dependents: map<string, set<string>>, vetoed: set<string>,
                               domain: string, pick: set<string> -> string, passes: nat): set<string>
    decreases passes
  {
    var q := QueryNames(names, domain);
    if q == {} || passes == 0 then names
    else AsWrittenUnregister(Unregistered(names, dependents, vetoed, pick(q)), dependents, vetoed, domain, pick, passes - 1)
  }

  /**
   * As written, one MBean in the domain that refuses to be unregistered, and that no other MBean
   * takes down with it, keeps the loop going for ever: whatever the iterator yields, no number of
   * passes empties the query.
   */
  lemma {:induction false} AsWrittenLoopNeverEnds(names: set<string>, dependents: map<string, set<string>>,
                                                  vetoed: set<string>, domain: string, pick: set<string> -> string,
                                                  v: string, passes: nat)
    requires v in QueryNames(names, domain) && v in vetoed
    requires forall n :: n in dependents ==> v !in dependents[n]
    ensures v in QueryNames(AsWrittenUnregister(names, dependents, vetoed, domain, pick, passes), domain)
    decreases passes
  {
    var q := QueryNames(names, domain);
    if passes > 0 {
      var names' := Unregistered(names, dependents, vetoed, pick(q));
      assert v in names';
      AsWrittenLoopNeverEnds(names', dependents, vetoed, domain, pick, v, passes - 1);
    }
  }

  /** Removing a member of `b` and keeping within the rest gives a strictly smaller set. */
  lemma StrictSubsetCardinality(a: set<string>, b: set<string>, n: string)
    requires n in b && a <= b - {n}
    ensures |a| < |b|
  {
    SubsetCardinality(a, b - {n});
    assert |b - {n}| == |b| - 1;
  }

  lemma SubsetCardinality(a: set<string>, b: set<string>)
    requires a <= b
    ensures |a| <= |b|
  {
    assert b == a + (b - a);
  }

  lemma QueryNamesMonotone(a: set<string>, b: set<string>, domain: string)
    requires a <= b
    ensures QueryNames(a, domain) <= QueryNames(b, domain)
  {
  }

  /** One successful unregistration makes the server strictly smaller. */
  lemma UnregisteredShrinks(names: set<string>, dependents: map<string, set<string>>, vetoed: set<string>,
                            n: string)
    requires n in names && n !in vetoed
    ensures |Unregistered(names, dependents, vetoed, n)| < |names|
  {
    var names' := Unregistered(names, dependents, vetoed, n);
    SubsetCardinality(names', names - {n});
    assert |names - {n}| == |names| - 1;
  }

  /** One pass of the source loop over a domain without refusing MBeans removes the name it picks. */
  lemma AsWrittenPassShrinks(names: set<string>, dependents: map<string, set<string>>, vetoed: set<string>,
                             domain: string, pick: set<string> -> string)
    requires forall q :: q != {} ==> pick(q) in q
    requires vetoed * QueryNames(names, domain) == {}
    requires QueryNames(names, domain) != {}
    ensures var names' := Unregistered(names, dependents, vetoed, pick(QueryNames(names, domain)));
      |names'| < |names| && vetoed * QueryNames(names', domain) == {}
  {
    var q := QueryNames(names, domain);
    var n := pick(q);
    assert n in q;
    assert n !in vetoed * q;
    var names' := Unregistered(names, dependents, vetoed, n);
    UnregisteredShrinks(names, dependents, vetoed, n);
    QueryNamesMonotone(names', names, domain);
  }

  /**
   * As written, the loop does empty the domain when no MBean in it refuses to go: one pass per
   * registered name is enough.
   */
  lemma {:induction false} AsWrittenLoopEndsWithoutVetoes(names: set<string>, dependents: map<string, set<string>>,
                                                          vetoed: set<string>, domain: string,
                                                          pick: set<string> -> string, passes: nat)
    requires forall q :: q != {} ==> pick(q) in q
    requires vetoed * QueryNames(names, domain) == {}
    requires passes >= |names|
    ensures QueryNames(AsWrittenUnregister(names, dependents, vetoed, domain, pick, passes), domain) == {}
    decreases passes
  {
    var q := QueryNames(names, domain);
    if q != {} {
      AsWrittenPassShrinks(names, dependents, vetoed, domain, pick);
      var names' := Unregistered(names, dependents, vetoed, pick(q));
      AsWrittenLoopEndsWithoutVetoes(names', dependents, vetoed, domain, pick, passes - 1);
    }
  }
}
