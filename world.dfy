/** Both external systems and the log, taken together as one value: the
    state a hook may change. Each hook run is specified by a function from
    the world before it to the world after it, and the hook method is
    proved to move its objects exactly as that function says. */
module Effects {
  import opened Common
  import opened DubService
  import opened PayloadStore

  datatype World = World(
    remote: Remote,
    dubCalls: seq<DubCall>,
    dubFaults: set<nat>,
    db: Db,
    repoCalls: seq<RepoCall>,
    repoFaults: set<nat>,
    log: seq<LogEntry>)

  /** The world the three objects currently make up. */
  function Snapshot(dub: DubClient, repo: Repository, logger: Logger): World
    reads dub, repo, logger
  {
    World(dub.remote, dub.calls, dub.faults, repo.db, repo.calls, repo.faults, logger.entries)
  }

  /** The next call to the link service, or to the repository, succeeds. */
  predicate DubUp(w: World) {
    |w.dubCalls| !in w.dubFaults
  }

  predicate RepoUp(w: World) {
    |w.repoCalls| !in w.repoFaults
  }

  /** A call made, before its effect. */
  function DubCalled(w: World, c: DubCall): World {
    w.(dubCalls := w.dubCalls + [c])
  }

  function RepoCalled(w: World, c: RepoCall): World {
    w.(repoCalls := w.repoCalls + [c])
  }

  function Logged(w: World, level: Level, message: string): World {
    w.(log := w.log + [LogEntry(level, message)])
  }

  /** How far a hook run got (`S` names its stages), and the world it left. */
  datatype Outcome<S> = Outcome(stage: S, world: World)

  /** A run only adds calls and log entries; the fault plans are fixed. */
  predicate Extends(w: World, w': World) {
    && w.dubCalls <= w'.dubCalls && w.repoCalls <= w'.repoCalls && w.log <= w'.log
    && w'.dubFaults == w.dubFaults && w'.repoFaults == w.repoFaults
  }
}
