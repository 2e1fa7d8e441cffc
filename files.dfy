/**
 * The host file system as java.io.File sees it: for each folder path, what
 * File.list/listFiles would report.
 */
module Files {

  /**
   * One name in a folder listing, with what File reports about it; modification
   * times are milliseconds since the epoch, so none is negative.
   */
  datatype Entry = Entry(name: string, isDirectory: bool, isFile: bool, lastModified: nat)

  /**
   * What listing a path yields: nothing there (File.exists is false), a plain
   * file or an unreadable directory (File.listFiles returns null), or the
   * entries of a directory in the order the platform lists them.
   */
  datatype Listing = Missing | NotADirectory | Unreadable | Listed(entries: seq<Entry>)

  /** Paths without an entry are missing. */
  type FileSystem = map<string, Listing>

  function ListingOf(fs: FileSystem, path: string): Listing {
    if path in fs then fs[path] else Missing
  }

  /** File.separator on the hosts modelled. */
  const Separator: string := "/"

  /** Paths.get(dir, name) and new File(dir, name). */
  function JoinPath(dir: string, name: string): string {
    dir + Separator + name
  }

  /** The modification time of the first entry called `name`, or 0 (File.lastModified for a missing file). */
  function TimeOf(es: seq<Entry>, name: string): nat {
    if es == [] then 0
    else if es[0].name == name then es[0].lastModified
    else TimeOf(es[1..], name)
  }

  /** File.lastModified of the file `name` inside folder `dir`. */
  function LastModifiedIn(fs: FileSystem, dir: string, name: string): nat {
    match ListingOf(fs, dir)
    case Listed(es) => TimeOf(es, name)
    case _ => 0
  }

  /** The entries of a listing, none when it is not a readable directory. */
  function EntriesOf(l: Listing): seq<Entry> {
    if l.Listed? then l.entries else []
  }

  /** The file system once `e` has been created inside folder `dir`. */
  function AddEntry(fs: FileSystem, dir: string, e: Entry): (r: FileSystem)
    ensures ListingOf(r, dir) == Listed(EntriesOf(ListingOf(fs, dir)) + [e])
    ensures forall p :: p != dir ==> ListingOf(r, p) == ListingOf(fs, p)
  {
    fs[dir := Listed(EntriesOf(ListingOf(fs, dir)) + [e])]
  }
}
