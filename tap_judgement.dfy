/** The tap judgement enum and the six-counter record `TapJudgements` with its `Index`/`IndexMut`
    impls. Both revisions of the struct module declare them with identical text
    (src/structs.rs:91-142, 362-371 and src/structs/mod.rs:86-124, 311-320); they live in one
    module here so that the two judge modules and the two struct modules can share them. */
module TapJudgements {

  datatype TapJudgement = Marvelous | Perfect | Great | Good | Bad | Miss

  /** Severity order: Marvelous is the best judgement, Miss the worst. */
  function Rank(j: TapJudgement): (r: nat)
    ensures r < 6
  {
    match j
    case Marvelous => 0
    case Perfect => 1
    case Great => 2
    case Good => 3
    case Bad => 4
    case Miss => 5
  }

  lemma RankInjective(a: TapJudgement, b: TapJudgement)
    ensures Rank(a) == Rank(b) <==> a == b
  {
  }

  const AllJudgements: seq<TapJudgement> := [Marvelous, Perfect, Great, Good, Bad, Miss]

  datatype TapJudgements = TapJudgements(
    marvelouses: nat, perfects: nat, greats: nat, goods: nat, bads: nat, misses: nat)
  {
    /** `Index<TapJudgement>`: the counter of judgement `j`. */
    function Get(j: TapJudgement): nat
    {
      match j
      case Marvelous => marvelouses
      case Perfect => perfects
      case Great => greats
      case Good => goods
      case Bad => bads
      case Miss => misses
    }

    /** `IndexMut<TapJudgement>` followed by a store: the counter of `j` becomes `v`. */
    function Set(j: TapJudgement, v: nat): (r: TapJudgements)
      ensures r.Get(j) == v
      ensures forall k :: k != j ==> r.Get(k) == Get(k)
    {
      match j
      case Marvelous => this.(marvelouses := v)
      case Perfect => this.(perfects := v)
      case Great => this.(greats := v)
      case Good => this.(goods := v)
      case Bad => this.(bads := v)
      case Miss => this.(misses := v)
    }

    function Total(): nat
    {
      marvelouses + perfects + greats + goods + bads + misses
    }
  }

  /** `TapJudgements::default()`. */
  const Zero: TapJudgements := TapJudgements(0, 0, 0, 0, 0, 0)

  /** `judgements[j] += 1`: only the counter of `j` moves, by one, so the total grows by one. */
  lemma IncrementOnlyTouchesIndex(t: TapJudgements, j: TapJudgement)
    ensures t.Set(j, t.Get(j) + 1).Total() == t.Total() + 1
    ensures forall k :: k != j ==> t.Set(j, t.Get(j) + 1).Get(k) == t.Get(k)
  {
  }

  /** The counters after `judgements[j] += 1` for every `j` of `js`, starting from the default. */
  function Tally(js: seq<TapJudgement>): TapJudgements
  {
    if js == [] then Zero
    else
      var t := Tally(js[..|js| - 1]);
      var j := js[|js| - 1];
      t.Set(j, t.Get(j) + 1)
  }

  /** Counting is exact: each counter holds the number of its judgements, so the counters sum to
      the number of judgements counted. */
  lemma {:induction false} TallyCounts(js: seq<TapJudgement>)
    ensures forall j :: Tally(js).Get(j) == multiset(js)[j]
    ensures Tally(js).Total() == |js|
  {
    if js != [] {
      var init := js[..|js| - 1];
      var last := js[|js| - 1];
      TallyCounts(init);
      assert js == init + [last];
      assert multiset(js) == multiset(init) + multiset{last};
      IncrementOnlyTouchesIndex(Tally(init), last);
    }
  }
}
