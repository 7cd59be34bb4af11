/** The cluster model instantiated with Marmot's own routing. */
module Deployment {
  import opened Store
  import opened Routing
  import opened Cluster
  import opened Convergence
  import opened Replicas

  /** Shards are numbered from 1 on the wire and from 0 in the model. */
  ghost function HashRouted(c: Codec, nodes: seq<NodeConfig>, shards: nat, maxEntries: nat, initial: Database)
    : (cfg: Config)
    requires shards >= 1
    ensures forall k :: cfg.route(k) + 1 == RouteOf(c, shards, k)
  {
    Config(nodes, shards, (k: RowKey) => if RouteOf(c, shards, k) >= 1 then RouteOf(c, shards, k) - 1 else 0,
           maxEntries, initial)
  }

  /** Whatever the hash and the value encoding, hash routing pins every row to one
      existing shard, so two drained, caught-up nodes without restores agree. */
  lemma HashRoutedNodesAgree(c: Codec, nodes: seq<NodeConfig>, shards: nat, maxEntries: nat, initial: Database,
                             acts: seq<Action>, n: nat, m: nat)
    requires shards >= 1
    requires var cfg := HashRouted(c, nodes, shards, maxEntries, initial);
             && Sound(cfg, n) && PlainRun(cfg, acts, n) && Sound(cfg, m) && PlainRun(cfg, acts, m)
    requires var cfg := HashRouted(c, nodes, shards, maxEntries, initial);
             var st := Execute(cfg, acts);
             && CaughtUp(cfg, st, n) && CaughtUp(cfg, st, m)
             && st.nodes[n].outbox == [] && st.nodes[m].outbox == []
    ensures var st := Execute(HashRouted(c, nodes, shards, maxEntries, initial), acts);
            st.nodes[n].db == st.nodes[m].db == Fold(initial, st.logs)
  {
    var cfg := HashRouted(c, nodes, shards, maxEntries, initial);
    assert ValidConfig(cfg);
    EventualConsistency(cfg, acts, n);
    EventualConsistency(cfg, acts, m);
  }
}
