/**
  All channels of the daemon together. Their records, locks and payments have different
  keys (see Keys and Storage), so a step on one channel leaves the others alone; what they
  share is the block number.
 */
module Fleet {
  import opened Wrappers
  import opened Records
  import opened Protocol
  import opened Runs

  type Channels = map<int, Sys>

  datatype FleetAction = At(id: int, action: Action) | Mine(blocks: nat)

  predicate CanFleet(cfg: Config, f: Channels, a: FleetAction) {
    match a
    case At(id, action) => id in f && !action.Tick? && Enabled(cfg, id, f[id], action) && Prudent(f[id], action)
    case Mine(_) => true
  }

  function DoFleet(cfg: Config, f: Channels, a: FleetAction): Channels
    requires CanFleet(cfg, f, a)
  {
    match a
    case At(id, action) => f[id := Next(cfg, id, f[id], action)]
    case Mine(blocks) => map id | id in f :: Next(cfg, id, f[id], Tick(blocks))
  }

  function FleetAfter(cfg: Config, f: Channels, actions: seq<FleetAction>): Channels {
    if actions == [] then f
    else
      var g := FleetAfter(cfg, f, actions[..|actions| - 1]);
      if CanFleet(cfg, g, actions[|actions| - 1]) then DoFleet(cfg, g, actions[|actions| - 1]) else g
  }

  predicate FleetAllowed(cfg: Config, f: Channels, actions: seq<FleetAction>) {
    actions == [] ||
    (&& FleetAllowed(cfg, f, actions[..|actions| - 1])
     && CanFleet(cfg, FleetAfter(cfg, f, actions[..|actions| - 1]), actions[|actions| - 1]))
  }

  /** What one channel sees of a run of all of them. */
  function Project(actions: seq<FleetAction>, id: int): seq<Action> {
    if actions == [] then []
    else
      var last := actions[|actions| - 1];
      Project(actions[..|actions| - 1], id)
      + match last {
          case At(other, action) => if other == id then [action] else []
          case Mine(blocks) => [Tick(blocks)]
        }
  }

  /** A run of all channels is, seen from each channel, a run of that channel's own system. */
  lemma {:induction false} ProjectionIsRun(cfg: Config, f: Channels, actions: seq<FleetAction>, id: int)
    requires FleetAllowed(cfg, f, actions) && id in f
    ensures Allowed(cfg, id, f[id], Project(actions, id))
    ensures id in FleetAfter(cfg, f, actions)
    ensures FleetAfter(cfg, f, actions)[id] == After(cfg, id, f[id], Project(actions, id))
  {
    if actions != [] {
      var init, last := actions[..|actions| - 1], actions[|actions| - 1];
      ProjectionIsRun(cfg, f, init, id);
      match last {
        case At(other, action) =>
          if other == id {
            AfterNext(cfg, id, f[id], Project(init, id), action);
          } else {
            assert Project(actions, id) == Project(init, id);
          }
        case Mine(blocks) =>
          AfterNext(cfg, id, f[id], Project(init, id), Tick(blocks));
      }
    }
  }

  lemma {:induction false} FleetKeepsChannels(cfg: Config, f: Channels, actions: seq<FleetAction>)
    ensures FleetAfter(cfg, f, actions).Keys == f.Keys
  {
    if actions != [] {
      FleetKeepsChannels(cfg, f, actions[..|actions| - 1]);
    }
  }

  /** Every channel keeps its invariant, whatever the others do. */
  lemma FleetSafe(cfg: Config, f: Channels, actions: seq<FleetAction>, id: int)
    requires (forall other | other in f :: Init(f[other])) && FleetAllowed(cfg, f, actions) && id in f
    ensures id in FleetAfter(cfg, f, actions)
    ensures Inv(cfg, id, FleetAfter(cfg, f, actions)[id]) && Reachable(cfg, id, FleetAfter(cfg, f, actions)[id])
  {
    ProjectionIsRun(cfg, f, actions, id);
    InvAlways(cfg, id, f[id], Project(actions, id));
  }
}
