/** What the daemon in a workspace's pod reports about its files. */
module Events {

  type Path = string

  /** `watchedPath` is the watched directory, `path` the file or directory the event is about. */
  datatype Event = Event(watchedPath: Path, path: Path, isFile: bool, isWrite: bool, ino: int, timestamp: int)
}
