/** Wire entities of the control-plane contract shared by the panel's renderer and the agent. */
module Model {
  import opened Basics
  import opened Names

  datatype TlsSide = Listen | Connect

  datatype Balance = RoundRobin | IpHash

  datatype Target = Target(host: string, port: nat)

  datatype Limit = Limit(
    serviceIn: Option<nat>, serviceOut: Option<nat>,
    connIn: Option<nat>, connOut: Option<nat>, maxConns: Option<nat>)

  /** One managed forward of a node's payload. */
  datatype Service = Service(
    name: string,
    listenPort: nat,
    target: Target,
    extraTargets: seq<Target>,
    balance: Option<Balance>,
    tlsSide: Option<TlsSide>,
    limit: Option<Limit>)
  {
    function Cap(): Option<nat>
    {
      if limit.Some? then limit.value.maxConns else None
    }
  }

  function ByKey<T>(key: T -> string): (T, T) -> bool
  {
    (a: T, b: T) => LexLeq(key(a), key(b))
  }

  function InsertBy<T>(key: T -> string, xs: seq<T>, x: T): seq<T>
  {
    Insert(ByKey(key), xs, x)
  }

  /** Stable sort by name. */
  function SortBy<T>(key: T -> string, xs: seq<T>): seq<T>
  {
    Sort(ByKey(key), xs)
  }

  lemma SortByPermutes<T>(key: T -> string, xs: seq<T>)
    ensures multiset(SortBy(key, xs)) == multiset(xs)
  {
    SortPermutes(ByKey(key), xs);
  }

  lemma ByKeyTotal<T(!new)>(key: T -> string)
    ensures TotalOrder(ByKey(key))
  {
    forall a: T, b: T ensures LexLeq(key(a), key(b)) || LexLeq(key(b), key(a)) {
      LexTotal(key(a), key(b));
    }
    forall a: T, b: T, c: T | LexLeq(key(a), key(b)) && LexLeq(key(b), key(c)) ensures LexLeq(key(a), key(c)) {
      LexTransitive(key(a), key(b), key(c));
    }
  }

  lemma SortBySorted<T(!new)>(key: T -> string, xs: seq<T>)
    ensures Ordered(ByKey(key), SortBy(key, xs))
  {
    ByKeyTotal(key);
    SortOrdered(ByKey(key), xs);
  }
}
