/** The lifecycle status shared by managed processes, process groups and the application server.
    The source stores these as the strings "NOTSTARTED", "STARTING", "STARTFAILED", "STARTED",
    "STOPPING", "RESTARTING", "STOPPED" and "TERMINATED". */
module ServiceStatus {

  datatype Status = NotStarted | Starting | StartFailed | Started | Stopping | Restarting | Stopped | Terminated

  /** A service that has finished running, successfully or not. */
  predicate Terminal(s: Status)
  {
    s == Stopped || s == Terminated || s == StartFailed
  }
}
