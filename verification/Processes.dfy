/**
  Processes and their control blocks.
 */
module Processes {

  datatype Phase = Created | Started | Resumed | Stopped | Finished

  /** A line of the input file. */
  datatype Process = Process(id: int, arrival: int, runtime: int, priority: int, memorySize: int)

  datatype Pcb = Pcb(pid: int, process: Process, startTime: int, waitTime: int, remaining: int, state: Phase)

  /** The PCB that fork_and_send puts into its message. */
  function NewPcb(pid: int, process: Process): Pcb {
    Pcb(pid, process, -1, 0, process.runtime, Created)
  }
}
