/** Observations of one possible source, and when a hypothesis explains them. */
module TravelTimes {
  import opened Basics

  /** The travel-time model. The square root is given, so no rounding is modelled. */
  datatype Config = Config(vp: real, vs: real, depth: real, gridNodes: nat, minSearch: real, sqrt: real -> real)

  datatype Obs = Obs(x: real, y: real, t: real, tau: real)

  predicate ValidConfig(c: Config) { c.vp > 0.0 && c.vs > 0.0 && c.gridNodes >= 2 }

  /** Tolerances come from a positive multiple of a positive standard deviation. */
  predicate Tolerant(obs: seq<Obs>) { forall o :: o in obs ==> o.tau > 0.0 }

  /** Distance from the hypothesised source at (x, y, depth) to an observation. */
  function Hypo(c: Config, x: real, y: real, o: Obs): real {
    c.sqrt((x - o.x) * (x - o.x) + (y - o.y) * (y - o.y) + c.depth * c.depth)
  }

  /** The origin time at which the observation is exactly a P arrival. */
  function POrigin(c: Config, x: real, y: real, o: Obs): real
    requires ValidConfig(c)
  {
    o.t - Hypo(c, x, y, o) / c.vp
  }

  /** The origin time at which the observation is exactly an S arrival. */
  function SOrigin(c: Config, x: real, y: real, o: Obs): real
    requires ValidConfig(c)
  {
    o.t - Hypo(c, x, y, o) / c.vs
  }

  /** The observation is within its tolerance of a P or an S arrival from origin time t. */
  predicate Consistent(c: Config, x: real, y: real, o: Obs, t: real)
    requires ValidConfig(c)
  {
    Abs(POrigin(c, x, y, o) - t) <= o.tau || Abs(SOrigin(c, x, y, o) - t) <= o.tau
  }

  function Consistents(c: Config, x: real, y: real, obs: seq<Obs>, t: real): set<nat>
    requires ValidConfig(c)
  {
    set i: nat | i < |obs| && Consistent(c, x, y, obs[i], t)
  }
}
