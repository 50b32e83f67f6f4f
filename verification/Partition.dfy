/** The network partition: iptables rules inserted on one host, and taken back. */
module Partition {

  datatype Chain = INPUT | OUTPUT

  datatype Ports = AllPorts | PortRange(low: int, high: int)

  /** `Drop`: `-p tcp -m tcp -j DROP` with the peer as source (INPUT) or destination (OUTPUT), for a
      range of destination ports, or for all of them.  `Other`: any rule the firewall held before. */
  datatype Rule = Drop(chain: Chain, peer: string, ports: Ports) | Other(chain: Chain, text: string)

  /** The rule lists of all hosts. */
  type Tables = map<(string, Chain), seq<Rule>>

  function ListOf(t: Tables, host: string, chain: Chain): seq<Rule> {
    if (host, chain) in t then t[(host, chain)] else []
  }

  function InsertFirst(rules: seq<Rule>, r: Rule): (s: seq<Rule>) {
    [r] + rules
  }

  /** `-D` takes away the first match; it fails when there is none. */
  function DeleteFirst(rules: seq<Rule>, r: Rule): (s: seq<Rule>)
    ensures r !in rules ==> s == rules
  {
    if rules == [] then []
    else if rules[0] == r then rules[1..]
    else [rules[0]] + DeleteFirst(rules[1..], r)
  }

  // ---- Inserting a list of rules and deleting the same list --------------------------

  function InsertAll(rules: seq<Rule>, rs: seq<Rule>): seq<Rule>
    decreases rs
  {
    if rs == [] then rules else InsertAll(InsertFirst(rules, rs[0]), rs[1..])
  }

  function DeleteAll(rules: seq<Rule>, rs: seq<Rule>): seq<Rule>
    decreases rs
  {
    if rs == [] then rules else DeleteAll(DeleteFirst(rules, rs[0]), rs[1..])
  }

  function Reverse(rs: seq<Rule>): (s: seq<Rule>)
    ensures |s| == |rs|
  {
    if rs == [] then [] else Reverse(rs[1..]) + [rs[0]]
  }

  lemma {:induction false} InsertedInFront(rules: seq<Rule>, rs: seq<Rule>)
    ensures InsertAll(rules, rs) == Reverse(rs) + rules
    decreases rs
  {
    if rs == [] {
      assert [] + rules == rules;
    } else {
      InsertedInFront(InsertFirst(rules, rs[0]), rs[1..]);
      assert Reverse(rs[1..]) + ([rs[0]] + rules) == Reverse(rs[1..]) + [rs[0]] + rules;
    }
  }

  lemma {:induction false} ReverseBag(rs: seq<Rule>)
    ensures multiset(Reverse(rs)) == multiset(rs)
  {
    if rs != [] {
      ReverseBag(rs[1..]);
      assert rs == [rs[0]] + rs[1..];
    }
  }

  lemma {:induction false} DeleteInFront(front: seq<Rule>, rules: seq<Rule>, r: Rule)
    requires r in front
    ensures DeleteFirst(front + rules, r) == DeleteFirst(front, r) + rules
    ensures multiset(DeleteFirst(front, r)) == multiset(front) - multiset{r}
  {
    assert front == [front[0]] + front[1..];
    assert (front + rules)[1..] == front[1..] + rules;
    if front[0] != r {
      DeleteInFront(front[1..], rules, r);
      assert [front[0]] + (DeleteFirst(front[1..], r) + rules) == [front[0]] + DeleteFirst(front[1..], r) + rules;
    }
  }

  /** Deleting, in any order and each by its first match, the rules of a front part removes exactly
      that part; equal rules further down stay where they are. */
  lemma {:induction false} DeleteFront(front: seq<Rule>, rules: seq<Rule>, rs: seq<Rule>)
    requires multiset(front) == multiset(rs)
    ensures DeleteAll(front + rules, rs) == rules
    decreases rs
  {
    if rs == [] {
      assert |front| == |multiset(front)| == 0;
      assert front + rules == rules;
    } else {
      assert rs == [rs[0]] + rs[1..];
      assert rs[0] in multiset(rs);
      DeleteInFront(front, rules, rs[0]);
      assert multiset(rs) - multiset{rs[0]} == multiset(rs[1..]);
      DeleteFront(DeleteFirst(front, rs[0]), rules, rs[1..]);
    }
  }

  /** What was inserted is undone as a sequence, duplicates included. */
  lemma InsertThenDelete(rules: seq<Rule>, rs: seq<Rule>)
    ensures DeleteAll(InsertAll(rules, rs), rs) == rules
  {
    InsertedInFront(rules, rs);
    ReverseBag(rs);
    DeleteFront(Reverse(rs), rules, rs);
  }

  // ---- The tables -----------------------------------------------------------------------

  function Insert(t: Tables, host: string, r: Rule): Tables {
    t[(host, r.chain) := InsertFirst(ListOf(t, host, r.chain), r)]
  }

  function Delete(t: Tables, host: string, r: Rule): Tables {
    t[(host, r.chain) := DeleteFirst(ListOf(t, host, r.chain), r)]
  }

  function InsertRules(t: Tables, host: string, rs: seq<Rule>): Tables
    decreases rs
  {
    if rs == [] then t else InsertRules(Insert(t, host, rs[0]), host, rs[1..])
  }

  function DeleteRules(t: Tables, host: string, rs: seq<Rule>): Tables
    decreases rs
  {
    if rs == [] then t else DeleteRules(Delete(t, host, rs[0]), host, rs[1..])
  }

  /** The rules of one chain, in order. */
  function Only(rs: seq<Rule>, chain: Chain): seq<Rule> {
    if rs == [] then []
    else (if rs[0].chain == chain then [rs[0]] else []) + Only(rs[1..], chain)
  }

  lemma OnlyStep(rs: seq<Rule>, chain: Chain)
    requires rs != []
    ensures var rest := Only(rs[1..], chain);
            if rs[0].chain == chain then Only(rs, chain) == [rs[0]] + rest && Only(rs, chain)[1..] == rest
            else Only(rs, chain) == rest
  {
  }

  lemma {:induction false} InsertRulesAt(t: Tables, host: string, rs: seq<Rule>, h: string, chain: Chain)
    ensures ListOf(InsertRules(t, host, rs), h, chain)
            == if h == host then InsertAll(ListOf(t, h, chain), Only(rs, chain)) else ListOf(t, h, chain)
    decreases rs
  {
    if rs != [] {
      InsertRulesAt(Insert(t, host, rs[0]), host, rs[1..], h, chain);
      OnlyStep(rs, chain);
    }
  }

  lemma {:induction false} DeleteRulesAt(t: Tables, host: string, rs: seq<Rule>, h: string, chain: Chain)
    ensures ListOf(DeleteRules(t, host, rs), h, chain)
            == if h == host then DeleteAll(ListOf(t, h, chain), Only(rs, chain)) else ListOf(t, h, chain)
    decreases rs
  {
    if rs != [] {
      DeleteRulesAt(Delete(t, host, rs[0]), host, rs[1..], h, chain);
      OnlyStep(rs, chain);
    }
  }

  /** Every list of every host is the same sequence in both. */
  ghost predicate SameLists(t: Tables, t': Tables) {
    forall h, chain :: ListOf(t, h, chain) == ListOf(t', h, chain)
  }

  lemma RulesUndone(t: Tables, host: string, rs: seq<Rule>)
    ensures SameLists(DeleteRules(InsertRules(t, host, rs), host, rs), t)
  {
    forall h, chain
      ensures ListOf(DeleteRules(InsertRules(t, host, rs), host, rs), h, chain) == ListOf(t, h, chain)
    {
      InsertRulesAt(t, host, rs, h, chain);
      DeleteRulesAt(InsertRules(t, host, rs), host, rs, h, chain);
      InsertThenDelete(ListOf(t, h, chain), Only(rs, chain));
    }
  }

  // ---- Every deletion finds its rule ----------------------------------------------------------

  /** Each `-D` of the list, carried out in order, finds the rule it is to delete. */
  ghost predicate AllFound(t: Tables, host: string, rs: seq<Rule>)
    decreases rs
  {
    rs == [] || (rs[0] in ListOf(t, host, rs[0].chain) && AllFound(Delete(t, host, rs[0]), host, rs[1..]))
  }

  /** Each chain of the host holds the rules to be deleted from it, often enough. */
  ghost predicate Covers(t: Tables, host: string, rs: seq<Rule>) {
    forall chain :: multiset(Only(rs, chain)) <= multiset(ListOf(t, host, chain))
  }

  lemma OnlyBag(rs: seq<Rule>, chain: Chain)
    requires rs != []
    ensures multiset(Only(rs, chain))
            == (if rs[0].chain == chain then multiset{rs[0]} else multiset{}) + multiset(Only(rs[1..], chain))
  {
    OnlyStep(rs, chain);
  }

  lemma ListAfterDelete(t: Tables, host: string, r: Rule, chain: Chain)
    ensures ListOf(Delete(t, host, r), host, chain)
            == if chain == r.chain then DeleteFirst(ListOf(t, host, chain), r) else ListOf(t, host, chain)
  {
  }

  lemma CoversFirst(t: Tables, host: string, rs: seq<Rule>)
    requires rs != [] && Covers(t, host, rs)
    ensures rs[0] in ListOf(t, host, rs[0].chain) && Covers(Delete(t, host, rs[0]), host, rs[1..])
  {
    hide Only, DeleteFirst, ListOf, Delete;
    var list := ListOf(t, host, rs[0].chain);
    OnlyBag(rs, rs[0].chain);
    assert rs[0] in multiset(list);
    DeleteInFront(list, [], rs[0]);
    forall chain
      ensures multiset(Only(rs[1..], chain)) <= multiset(ListOf(Delete(t, host, rs[0]), host, chain))
    {
      OnlyBag(rs, chain);
      ListAfterDelete(t, host, rs[0], chain);
    }
  }

  lemma {:induction false} CoveredAreFound(t: Tables, host: string, rs: seq<Rule>)
    requires Covers(t, host, rs)
    ensures AllFound(t, host, rs)
    decreases rs
  {
    if rs != [] {
      CoversFirst(t, host, rs);
      CoveredAreFound(Delete(t, host, rs[0]), host, rs[1..]);
    }
  }

  /** After the insertions every deletion finds its rule, so that none of the commands fails. */
  lemma DeletionsSucceed(t: Tables, host: string, rs: seq<Rule>)
    ensures AllFound(InsertRules(t, host, rs), host, rs)
  {
    forall chain
      ensures multiset(Only(rs, chain)) <= multiset(ListOf(InsertRules(t, host, rs), host, chain))
    {
      InsertRulesAt(t, host, rs, host, chain);
      InsertedInFront(ListOf(t, host, chain), Only(rs, chain));
      ReverseBag(Only(rs, chain));
    }
    CoveredAreFound(InsertRules(t, host, rs), host, rs);
  }

  lemma DeletesNothing(t: Tables, host: string)
    ensures DeleteRules(t, host, []) == t
  {
  }

  lemma DeletesNext(t: Tables, host: string, rs: seq<Rule>, k: nat)
    requires k < |rs|
    ensures DeleteRules(t, host, rs[k..]) == DeleteRules(Delete(t, host, rs[k]), host, rs[k + 1..])
    ensures AllFound(t, host, rs[k..]) <==>
            rs[k] in ListOf(t, host, rs[k].chain) && AllFound(Delete(t, host, rs[k]), host, rs[k + 1..])
  {
    assert rs[k..][1..] == rs[k + 1..];
  }

  // ---- The rules of a partition -------------------------------------------------------------

  datatype Instance = Instance(host: string, port: int)

  function StorageRules(picked: Instance, storages: seq<Instance>): seq<Rule> {
    if storages == [] then []
    else
      var s := storages[0];
      (if s == picked then []
       else [Drop(INPUT, s.host, PortRange(picked.port, picked.port + 1)),
             Drop(OUTPUT, s.host, PortRange(s.port, s.port + 1))])
      + StorageRules(picked, storages[1..])
  }

  function MetaRules(picked: Instance, metas: seq<Instance>): seq<Rule> {
    if metas == [] then []
    else
      [Drop(INPUT, metas[0].host, PortRange(picked.port, picked.port)),
       Drop(OUTPUT, metas[0].host, PortRange(metas[0].port, metas[0].port))]
      + MetaRules(picked, metas[1..])
  }

  /** The graph service's port is not known, so everything to its host is dropped. */
  function GraphRules(picked: Instance, graphHost: string): seq<Rule> {
    [Drop(INPUT, graphHost, PortRange(picked.port, picked.port)), Drop(OUTPUT, graphHost, AllPorts)]
  }

  function PartitionRules(picked: Instance, storages: seq<Instance>, metas: seq<Instance>, graphHost: string)
    : seq<Rule>
  {
    StorageRules(picked, storages) + MetaRules(picked, metas) + GraphRules(picked, graphHost)
  }

  lemma {:induction false} StorageRulesCover(picked: Instance, storages: seq<Instance>, s: Instance)
    requires s in storages && s != picked
    ensures Drop(INPUT, s.host, PortRange(picked.port, picked.port + 1)) in StorageRules(picked, storages)
    ensures Drop(OUTPUT, s.host, PortRange(s.port, s.port + 1)) in StorageRules(picked, storages)
  {
    if storages[0] == s {
      assert StorageRules(picked, storages)[0].peer == s.host;
      assert StorageRules(picked, storages)[1] == Drop(OUTPUT, s.host, PortRange(s.port, s.port + 1));
    } else {
      StorageRulesCover(picked, storages[1..], s);
    }
  }

  lemma {:induction false} MetaRulesCover(picked: Instance, metas: seq<Instance>, m: Instance)
    requires m in metas
    ensures Drop(INPUT, m.host, PortRange(picked.port, picked.port)) in MetaRules(picked, metas)
    ensures Drop(OUTPUT, m.host, PortRange(m.port, m.port)) in MetaRules(picked, metas)
  {
    if metas[0] == m {
      assert MetaRules(picked, metas)[0] == Drop(INPUT, m.host, PortRange(picked.port, picked.port));
      assert MetaRules(picked, metas)[1] == Drop(OUTPUT, m.host, PortRange(m.port, m.port));
    } else {
      MetaRulesCover(picked, metas[1..], m);
    }
  }

  /** How many of the storage instances are not the picked one. */
  function Others(picked: Instance, storages: seq<Instance>): (n: nat)
    ensures n <= |storages|
  {
    if storages == [] then 0 else (if storages[0] == picked then 0 else 1) + Others(picked, storages[1..])
  }

  lemma {:induction false} StorageRulesOnly(picked: Instance, storages: seq<Instance>, r: Rule)
    ensures |StorageRules(picked, storages)| == 2 * Others(picked, storages)
    ensures r in StorageRules(picked, storages) ==>
              exists s :: s in storages && s != picked
                          && (r == Drop(INPUT, s.host, PortRange(picked.port, picked.port + 1))
                              || r == Drop(OUTPUT, s.host, PortRange(s.port, s.port + 1)))
  {
    if storages != [] {
      StorageRulesOnly(picked, storages[1..], r);
      assert storages[0] in storages;
    }
  }

  lemma {:induction false} MetaRulesOnly(picked: Instance, metas: seq<Instance>, r: Rule)
    ensures |MetaRules(picked, metas)| == 2 * |metas|
    ensures r in MetaRules(picked, metas) ==>
              exists m :: m in metas
                          && (r == Drop(INPUT, m.host, PortRange(picked.port, picked.port))
                              || r == Drop(OUTPUT, m.host, PortRange(m.port, m.port)))
  {
    if metas != [] {
      MetaRulesOnly(picked, metas[1..], r);
      assert metas[0] in metas;
    }
  }

  /** The partition consists of these rules and no others: for each other storage instance, for each meta
      instance and for the graph service one in each direction. */
  lemma RulesExact(picked: Instance, storages: seq<Instance>, metas: seq<Instance>, graphHost: string, r: Rule)
    ensures r in PartitionRules(picked, storages, metas, graphHost) <==>
            || (exists s :: s in storages && s != picked
                            && (r == Drop(INPUT, s.host, PortRange(picked.port, picked.port + 1))
                                || r == Drop(OUTPUT, s.host, PortRange(s.port, s.port + 1))))
            || (exists m :: m in metas
                            && (r == Drop(INPUT, m.host, PortRange(picked.port, picked.port))
                                || r == Drop(OUTPUT, m.host, PortRange(m.port, m.port))))
            || r == Drop(INPUT, graphHost, PortRange(picked.port, picked.port))
            || r == Drop(OUTPUT, graphHost, AllPorts)
    ensures |PartitionRules(picked, storages, metas, graphHost)| == 2 * (Others(picked, storages) + |metas| + 1)
  {
    StorageRulesOnly(picked, storages, r);
    MetaRulesOnly(picked, metas, r);
    forall s | s in storages && s != picked
      ensures Drop(INPUT, s.host, PortRange(picked.port, picked.port + 1)) in StorageRules(picked, storages)
      ensures Drop(OUTPUT, s.host, PortRange(s.port, s.port + 1)) in StorageRules(picked, storages)
    {
      StorageRulesCover(picked, storages, s);
    }
    forall m | m in metas
      ensures Drop(INPUT, m.host, PortRange(picked.port, picked.port)) in MetaRules(picked, metas)
      ensures Drop(OUTPUT, m.host, PortRange(m.port, m.port)) in MetaRules(picked, metas)
    {
      MetaRulesCover(picked, metas, m);
    }
    var graph := GraphRules(picked, graphHost);
    assert graph[0] == Drop(INPUT, graphHost, PortRange(picked.port, picked.port));
    assert graph[1] == Drop(OUTPUT, graphHost, AllPorts);
  }

  lemma StorageStep(picked: Instance, storages: seq<Instance>, k: nat)
    requires k < |storages|
    ensures var s, rest := storages[k], StorageRules(picked, storages[k + 1..]);
            StorageRules(picked, storages[k..])
            == if s == picked then rest
               else [Drop(INPUT, s.host, PortRange(picked.port, picked.port + 1)),
                     Drop(OUTPUT, s.host, PortRange(s.port, s.port + 1))] + rest
  {
    assert storages[k..][1..] == storages[k + 1..];
  }

  lemma MetaStep(picked: Instance, metas: seq<Instance>, k: nat)
    requires k < |metas|
    ensures MetaRules(picked, metas[k..])
            == [Drop(INPUT, metas[k].host, PortRange(picked.port, picked.port)),
                Drop(OUTPUT, metas[k].host, PortRange(metas[k].port, metas[k].port))] + MetaRules(picked, metas[k + 1..])
  {
    assert metas[k..][1..] == metas[k + 1..];
  }

  lemma MetaEnd(picked: Instance, metas: seq<Instance>)
    ensures MetaRules(picked, metas[|metas|..]) == []
  {
  }

  lemma StorageEnd(picked: Instance, storages: seq<Instance>)
    ensures StorageRules(picked, storages[|storages|..]) == []
  {
  }

  // ---- The commands ------------------------------------------------------------------------

  /** `iptables -I` or `-D` with one rule, on one host. */
  datatype Command = Command(host: string, insert: bool, rule: Rule)

  function Effect(t: Tables, c: Command): Tables {
    if c.insert then Insert(t, c.host, c.rule) else Delete(t, c.host, c.rule)
  }

  function Commands(host: string, insert: bool, rs: seq<Rule>): (cs: seq<Command>) {
    seq(|rs|, k requires 0 <= k < |rs| => Command(host, insert, rs[k]))
  }

  /** One round: the rules of the partition around the picked instance are inserted on its host, and then
      the same rules are deleted there, in the same order. */
  function RoundCommands(picked: Instance, storages: seq<Instance>, metas: seq<Instance>, graphHost: string)
    : seq<Command>
  {
    var rs := PartitionRules(picked, storages, metas, graphHost);
    Commands(picked.host, true, rs) + Commands(picked.host, false, rs)
  }

  /** The rounds for the instances picked, one after the other. */
  function AllCommands(picks: seq<Instance>, storages: seq<Instance>, metas: seq<Instance>, graphHost: string)
    : seq<Command>
  {
    if picks == [] then []
    else
      AllCommands(picks[..|picks| - 1], storages, metas, graphHost)
      + RoundCommands(picks[|picks| - 1], storages, metas, graphHost)
  }

  lemma NoCommands(host: string, insert: bool)
    ensures Commands(host, insert, []) == []
  {
  }

  lemma NoRounds(storages: seq<Instance>, metas: seq<Instance>, graphHost: string)
    ensures AllCommands([], storages, metas, graphHost) == []
  {
  }

  lemma OneMoreCommand(host: string, insert: bool, rs: seq<Rule>, k: nat)
    requires k < |rs|
    ensures Commands(host, insert, rs[..k + 1]) == Commands(host, insert, rs[..k]) + [Command(host, insert, rs[k])]
  {
  }

  lemma OneMoreRound(picks: seq<Instance>, k: nat, storages: seq<Instance>, metas: seq<Instance>, graphHost: string)
    requires k < |picks|
    ensures AllCommands(picks[..k + 1], storages, metas, graphHost)
            == AllCommands(picks[..k], storages, metas, graphHost) + RoundCommands(picks[k], storages, metas, graphHost)
  {
    assert picks[..k + 1][..k] == picks[..k];
  }

  class RandomPartitionAction {
    const graphHost: string
    const metas: seq<Instance>
    const storages: seq<Instance>
    const loopTimes: int
    var tables: Tables
    var picked: Instance
    var paras: seq<Rule>
    // the commands sent so far
    ghost var history: seq<Command>

    constructor (graphHost: string, metas: seq<Instance>, storages: seq<Instance>, loopTimes: int, tables: Tables)
      ensures this.graphHost == graphHost && this.metas == metas && this.storages == storages
      ensures this.loopTimes == loopTimes && this.tables == tables && history == []
    {
      this.graphHost, this.metas, this.storages, this.loopTimes := graphHost, metas, storages, loopTimes;
      this.tables, picked, paras, history := tables, Instance("", 0), [], [];
    }

    /** One command reaches its host; it fails if it is to delete a rule that is not there. */
    method Send(c: Command) returns (ok: bool)
      modifies this`tables, this`history
      ensures history == old(history) + [c] && tables == Effect(old(tables), c)
      ensures ok <==> c.insert || c.rule in ListOf(old(tables), c.host, c.rule.chain)
    {
      ok := c.insert || c.rule in ListOf(tables, c.host, c.rule.chain);
      tables := Effect(tables, c);
      history := history + [c];
    }

    /** Collects the rules for the picked storage host and inserts them there one by one. */
    method Disturb(choice: Instance)
      requires choice in storages
      modifies this
      ensures picked == choice && paras == PartitionRules(choice, storages, metas, graphHost)
      ensures tables == InsertRules(old(tables), choice.host, paras)
      ensures history == old(history) + Commands(choice.host, true, paras)
    {
      picked := choice;
      paras := [];
      CollectStorages();
      CollectMetas();
      paras := paras + [Drop(INPUT, graphHost, PortRange(picked.port, picked.port)), Drop(OUTPUT, graphHost, AllPorts)];
      InsertParas();
    }

    method CollectStorages()
      modifies this`paras
      ensures paras == old(paras) + StorageRules(picked, storages)
    {
      hide StorageRules;
      assert storages[0..] == storages;
      for k := 0 to |storages|
        invariant paras + StorageRules(picked, storages[k..]) == old(paras) + StorageRules(picked, storages)
      {
        StorageStep(picked, storages, k);
        var s := storages[k];
        ghost var rest := StorageRules(picked, storages[k + 1..]);
        if s != picked {
          var two := [Drop(INPUT, s.host, PortRange(picked.port, picked.port + 1)),
                      Drop(OUTPUT, s.host, PortRange(s.port, s.port + 1))];
          assert paras + (two + rest) == paras + two + rest;
          paras := paras + two;
        }
      }
      StorageEnd(picked, storages);
    }

    method CollectMetas()
      modifies this`paras
      ensures paras == old(paras) + MetaRules(picked, metas)
    {
      hide MetaRules;
      assert metas[0..] == metas;
      for k := 0 to |metas|
        invariant paras + MetaRules(picked, metas[k..]) == old(paras) + MetaRules(picked, metas)
      {
        MetaStep(picked, metas, k);
        var two := [Drop(INPUT, metas[k].host, PortRange(picked.port, picked.port)),
                    Drop(OUTPUT, metas[k].host, PortRange(metas[k].port, metas[k].port))];
        ghost var rest := MetaRules(picked, metas[k + 1..]);
        assert paras + (two + rest) == paras + two + rest;
        paras := paras + two;
      }
      MetaEnd(picked, metas);
    }

    method InsertParas()
      modifies this`tables, this`history
      ensures tables == InsertRules(old(tables), picked.host, paras)
      ensures history == old(history) + Commands(picked.host, true, paras)
    {
      hide Commands;
      NoCommands(picked.host, true);
      for k := 0 to |paras|
        invariant InsertRules(tables, picked.host, paras[k..]) == InsertRules(old(tables), picked.host, paras)
        invariant history == old(history) + Commands(picked.host, true, paras[..k])
      {
        assert paras[k..][1..] == paras[k + 1..];
        OneMoreCommand(picked.host, true, paras, k);
        var ok := Send(Command(picked.host, true, paras[k]));
        assert ok;
      }
      assert paras[..|paras|] == paras;
    }

    /** Deletes the remembered rules on the picked host, in the same order.  The exit status of the
        joined commands is that of the last; it is good if every deletion finds its rule. */
    method Recover() returns (exitOk: bool)
      modifies this`tables, this`history
      ensures tables == DeleteRules(old(tables), picked.host, paras)
      ensures history == old(history) + Commands(picked.host, false, paras)
      ensures AllFound(old(tables), picked.host, paras) ==> exitOk
    {
      hide Commands, DeleteRules, AllFound, Delete, ListOf;
      NoCommands(picked.host, false);
      exitOk := true;
      for k := 0 to |paras|
        invariant DeleteRules(tables, picked.host, paras[k..]) == DeleteRules(old(tables), picked.host, paras)
        invariant history == old(history) + Commands(picked.host, false, paras[..k])
        invariant AllFound(old(tables), picked.host, paras) ==> AllFound(tables, picked.host, paras[k..]) && exitOk
      {
        DeletesNext(tables, picked.host, paras, k);
        OneMoreCommand(picked.host, false, paras, k);
        exitOk := Send(Command(picked.host, false, paras[k]));
      }
      DeletesNothing(tables, picked.host);
      assert paras[|paras|..] == [];
      assert paras[..|paras|] == paras;
    }

    /** Any number of disturb/recover rounds, whatever host each of them picks: the commands sent are those
        of `loopTimes` rounds, every list of every host ends as the sequence it was, and no deletion fails
        on the way. */
    method DoRun(choices: seq<Instance>)
      requires forall c :: c in choices ==> c in storages
      requires loopTimes <= |choices|
      modifies this
      ensures var rounds := if loopTimes > 0 then loopTimes else 0;
              history == old(history) + AllCommands(choices[..rounds], storages, metas, graphHost)
      ensures SameLists(tables, old(tables))
    {
      hide Commands, AllCommands, PartitionRules, InsertRules, DeleteRules;
      var i := 0;
      NoRounds(storages, metas, graphHost);
      while i < loopTimes
        invariant 0 <= i && (i <= loopTimes || i == 0)
        invariant history == old(history) + AllCommands(choices[..i], storages, metas, graphHost)
        invariant SameLists(tables, old(tables))
      {
        ghost var before := tables;
        Disturb(choices[i]);
        var exitOk := Recover();
        DeletionsSucceed(before, choices[i].host, paras);
        assert exitOk;
        RulesUndone(before, choices[i].host, paras);
        OneMoreRound(choices, i, storages, metas, graphHost);
        i := i + 1;
      }
    }
  }

  /** The host `h` drops the packets of the rule: it is there, and no rule of another kind, which might
      let them pass, stands before it. */
  ghost predicate Drops(t: Tables, h: string, r: Rule) {
    var list := ListOf(t, h, r.chain);
    r.Drop? && exists k :: 0 <= k < |list| && list[k] == r && forall j :: 0 <= j < k ==> list[j].Drop?
  }

  predicate OnlyDrops(rs: seq<Rule>) {
    forall r :: r in rs ==> r.Drop?
  }

  lemma {:induction false} StorageRulesDrop(picked: Instance, storages: seq<Instance>)
    ensures OnlyDrops(StorageRules(picked, storages))
  {
    if storages != [] {
      StorageRulesDrop(picked, storages[1..]);
    }
  }

  lemma {:induction false} MetaRulesDrop(picked: Instance, metas: seq<Instance>)
    ensures OnlyDrops(MetaRules(picked, metas))
  {
    if metas != [] {
      MetaRulesDrop(picked, metas[1..]);
    }
  }

  lemma {:induction false} OnlyIsPart(rs: seq<Rule>, chain: Chain)
    ensures forall r :: r in Only(rs, chain) ==> r in rs
  {
    if rs != [] {
      OnlyIsPart(rs[1..], chain);
    }
  }

  lemma {:induction false} OnlyKeeps(rs: seq<Rule>, r: Rule)
    requires r in rs
    ensures r in Only(rs, r.chain)
  {
    if rs[0] != r {
      OnlyKeeps(rs[1..], r);
    }
  }

  lemma RuleIsThere(t: Tables, host: string, rs: seq<Rule>, r: Rule)
    requires r in rs && OnlyDrops(rs)
    ensures Drops(InsertRules(t, host, rs), host, r)
  {
    InsertRulesAt(t, host, rs, host, r.chain);
    var only := Only(rs, r.chain);
    OnlyKeeps(rs, r);
    OnlyIsPart(rs, r.chain);
    InsertedInFront(ListOf(t, host, r.chain), only);
    ReverseBag(only);
    var front := Reverse(only);
    assert r in multiset(only);
    var k :| 0 <= k < |front| && front[k] == r;
    forall j | 0 <= j < |front|
      ensures front[j].Drop?
    {
      assert front[j] in multiset(front);
      assert front[j] in only;
    }
    var list := ListOf(InsertRules(t, host, rs), host, r.chain);
    assert list[k] == r && forall j :: 0 <= j < k ==> list[j] == front[j];
  }

  /** While the partition lasts, each other storage service and each meta service is cut off from the
      picked one in both directions, and so is the graph service's host, whatever rules were there
      before. */
  lemma PartitionCutsOff(t: Tables, picked: Instance, storages: seq<Instance>, metas: seq<Instance>, graphHost: string)
    ensures var t' := InsertRules(t, picked.host, PartitionRules(picked, storages, metas, graphHost));
            && (forall s :: s in storages && s != picked ==>
                  && Drops(t', picked.host, Drop(INPUT, s.host, PortRange(picked.port, picked.port + 1)))
                  && Drops(t', picked.host, Drop(OUTPUT, s.host, PortRange(s.port, s.port + 1))))
            && (forall m :: m in metas ==>
                  && Drops(t', picked.host, Drop(INPUT, m.host, PortRange(picked.port, picked.port)))
                  && Drops(t', picked.host, Drop(OUTPUT, m.host, PortRange(m.port, m.port))))
            && Drops(t', picked.host, Drop(INPUT, graphHost, PortRange(picked.port, picked.port)))
            && Drops(t', picked.host, Drop(OUTPUT, graphHost, AllPorts))
  {
    var rs := PartitionRules(picked, storages, metas, graphHost);
    var t' := InsertRules(t, picked.host, rs);
    StorageRulesDrop(picked, storages);
    MetaRulesDrop(picked, metas);
    forall s | s in storages && s != picked
      ensures Drops(t', picked.host, Drop(INPUT, s.host, PortRange(picked.port, picked.port + 1)))
      ensures Drops(t', picked.host, Drop(OUTPUT, s.host, PortRange(s.port, s.port + 1)))
    {
      StorageRulesCover(picked, storages, s);
      RuleIsThere(t, picked.host, rs, Drop(INPUT, s.host, PortRange(picked.port, picked.port + 1)));
      RuleIsThere(t, picked.host, rs, Drop(OUTPUT, s.host, PortRange(s.port, s.port + 1)));
    }
    forall m | m in metas
      ensures Drops(t', picked.host, Drop(INPUT, m.host, PortRange(picked.port, picked.port)))
      ensures Drops(t', picked.host, Drop(OUTPUT, m.host, PortRange(m.port, m.port)))
    {
      MetaRulesCover(picked, metas, m);
      RuleIsThere(t, picked.host, rs, Drop(INPUT, m.host, PortRange(picked.port, picked.port)));
      RuleIsThere(t, picked.host, rs, Drop(OUTPUT, m.host, PortRange(m.port, m.port)));
    }
    RuleIsThere(t, picked.host, rs, Drop(INPUT, graphHost, PortRange(picked.port, picked.port)));
    RuleIsThere(t, picked.host, rs, Drop(OUTPUT, graphHost, AllPorts));
  }
}
