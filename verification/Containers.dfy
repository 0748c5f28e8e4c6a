/** The values everything else talks about: container details and lookups by ID. */
module Containers {

  type Id = string

  datatype Option<+T> = None | Some(value: T)

  /** What the watcher knows about one alive container. The PID tells apart two
      incarnations of a container that reuse the same ID. */
  datatype Details = Details(id: Id, name: string, project: string, pid: int, paused: bool)

  /** Same container, same incarnation; only the pause state may differ. */
  predicate SameIncarnation(a: Details, b: Details) {
    a == b.(paused := a.paused)
  }

  /** The containers known by ID; each one is stored under its own ID. */
  ghost predicate Keyed(m: map<Id, Details>) {
    forall id | id in m :: m[id].id == id
  }
}
