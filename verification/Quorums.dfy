/** Counting voters: any two quorums of n - f out of n >= 3f + 1 share an honest replica. */
module Quorums {
  type ReplicaId = nat

  datatype Config = Config(n: nat, f: nat, byzantine: set<ReplicaId>)

  function Ids(n: nat): (ids: set<ReplicaId>)
    ensures |ids| == n
    ensures forall i: nat :: i in ids <==> i < n
  {
    if n == 0 then {} else Ids(n - 1) + {n - 1}
  }

  ghost predicate Valid(cfg: Config) {
    cfg.n >= 3 * cfg.f + 1 && cfg.byzantine <= Ids(cfg.n) && |cfg.byzantine| <= cfg.f
  }

  function Honest(cfg: Config): set<ReplicaId> {
    Ids(cfg.n) - cfg.byzantine
  }

  lemma SubsetCount<T>(a: set<T>, b: set<T>)
    requires a <= b
    ensures |a| <= |b|
  {
    assert b == a + (b - a);
  }

  lemma SharedHonest(cfg: Config, a: set<ReplicaId>, b: set<ReplicaId>) returns (r: ReplicaId)
    requires Valid(cfg) && a <= Ids(cfg.n) && b <= Ids(cfg.n)
    requires |a| >= cfg.n - cfg.f && |b| >= cfg.n - cfg.f
    ensures r in a && r in b && r in Honest(cfg)
  {
    SubsetCount(a + b, Ids(cfg.n));
    assert |a + b| == |a| + |b| - |a * b|;
    if a * b <= cfg.byzantine {
      SubsetCount(a * b, cfg.byzantine);
    }
    r :| r in a * b && r !in cfg.byzantine;
  }

  lemma HonestMember(cfg: Config, a: set<ReplicaId>) returns (r: ReplicaId)
    requires Valid(cfg) && a <= Ids(cfg.n) && |a| >= cfg.n - cfg.f
    ensures r in a && r in Honest(cfg)
  {
    r := SharedHonest(cfg, a, a);
  }
}
