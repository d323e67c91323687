/** The fields of a managed process, and what each setter does to them. */
module ShimProcess {
  import opened RunjState

  /** What the reaper reports about an ended process.  `after` is history: how
      many `runj start` commands had opened the fifo when the process ended. */
  datatype Exit = Exit(pid: nat, status: nat, at: nat, after: nat)

  const NO_EXIT := Exit(0, 0, 0, 0)

  datatype Process = Process(pid: nat, exit: Exit, state: Status, specfile: bool) {
    /** The PID is write-once: a different second value is refused. */
    function WithPid(p: nat): Process {
      if pid != 0 && pid != p then this else this.(pid := p)
    }

    function WithExited(e: Exit): Process { this.(exit := e) }

    function WithState(st: Status): Process { this.(state := st) }

    function WithSpecfile(present: bool): Process { this.(specfile := present) }
  }

  const NewProcess := Process(0, NO_EXIT, Unset, false)
}
