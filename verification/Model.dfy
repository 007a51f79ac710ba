/** The versioned definitions a run is started with: capabilities, agents, and a graph of tasks. */
module Model {

  const U64_MAX: int := 0xFFFF_FFFF_FFFF_FFFF

  type u64 = x: int | 0 <= x <= U64_MAX

  datatype Capability = Capability(name: string, version: string, sideEffecting: bool)

  datatype Agent = Agent(
    id: string, version: string, capabilities: seq<string>, priority: int, enabled: bool, maxConcurrent: int)

  datatype Task = Task(id: string, version: string, requires_: seq<string>, dependsOn: seq<string>, cost: u64)

  datatype TaskDAG = TaskDAG(version: string, tasks: seq<Task>, maxFanout: int, budget: u64)

  datatype Catalog = Catalog(version: string, capabilities: seq<Capability>, agents: seq<Agent>)

  datatype Option<+T> = None | Some(value: T)
}
