/** The part of the filesystem the tracker and the manager touch: text
    files by path, and for each directory the names of the files written
    into it, in the order they were first written. Reads that fail are
    `None`. */
module FileStore {
  import opened Wrappers
  import opened Text

  /** `path.join(projectPath, '.context')` */
  function ContextDir(projectPath: string): string {
    PathJoin(projectPath, ".context")
  }

  function SessionsDir(projectPath: string): string {
    PathJoin(ContextDir(projectPath), "sessions")
  }

  function ProgressDir(projectPath: string): string {
    PathJoin(ContextDir(projectPath), "progress")
  }

  function ArtifactsDir(projectPath: string): string {
    PathJoin(ContextDir(projectPath), "artifacts")
  }

  /** A directory listing after `name` is written into it. */
  function Listed(listing: seq<string>, name: string): (r: seq<string>)
    ensures name in r
    ensures forall n :: n in listing ==> n in r
    ensures forall n :: n in r ==> n in listing || n == name
  {
    if name in listing then listing else listing + [name]
  }

  /** The listings after a file `name` is written into `dir`. */
  function AfterWrite(listings: map<string, seq<string>>, dir: string, name: string): (r: map<string, seq<string>>)
    ensures dir in r && name in r[dir] && r.Keys == listings.Keys + {dir}
    ensures forall d :: d in listings && d != dir ==> r[d] == listings[d]
  {
    listings[dir := Listed(if dir in listings then listings[dir] else [], name)]
  }

  /** The listings after `mkdir -p dir`: an existing directory keeps its
      entries. */
  function WithDirectory(listings: map<string, seq<string>>, dir: string): (r: map<string, seq<string>>)
    ensures dir in r && r.Keys == listings.Keys + {dir}
    ensures dir in listings ==> r == listings
    ensures dir !in listings ==> r[dir] == []
  {
    if dir in listings then listings else listings[dir := []]
  }

  /** The listings after `ensureContextDirectory(projectPath)`. */
  function WithContextDirectories(listings: map<string, seq<string>>, projectPath: string): map<string, seq<string>> {
    WithDirectory(WithDirectory(WithDirectory(WithDirectory(listings, ContextDir(projectPath)),
      SessionsDir(projectPath)), ProgressDir(projectPath)), ArtifactsDir(projectPath))
  }

  /** The configuration file `ensureContextDirectory` creates and
      `loadConfig` reads. */
  const ConfigFile := "config.json"

  function ConfigPath(projectPath: string): string {
    PathJoin(ContextDir(projectPath), ConfigFile)
  }

  /** The files after `ensureContextDirectory`: the initial configuration
      is written where none exists, and no existing file changes. */
  function WithInitialConfig(files: map<string, string>, projectPath: string, configText: string): (r: map<string, string>)
    ensures r.Keys == files.Keys + {ConfigPath(projectPath)}
    ensures forall path :: path in files ==> r[path] == files[path]
    ensures ConfigPath(projectPath) !in files ==> r[ConfigPath(projectPath)] == configText
  {
    if ConfigPath(projectPath) in files then files else files[ConfigPath(projectPath) := configText]
  }

  /** The listings after `ensureContextDirectory`: the four directories,
      and the configuration file listed when it is created. */
  function ContextListings(listings: map<string, seq<string>>, files: map<string, string>, projectPath: string): map<string, seq<string>> {
    if ConfigPath(projectPath) in files then WithContextDirectories(listings, projectPath)
    else AfterWrite(WithContextDirectories(listings, projectPath), ContextDir(projectPath), ConfigFile)
  }

  class FileSystem {
    var files: map<string, string>
    var listings: map<string, seq<string>>

    constructor()
      ensures files == map[] && listings == map[]
    {
      files := map[];
      listings := map[];
    }

    /** `fs.readFile(path, 'utf8')`, `None` where it throws. */
    function ReadFile(path: string): (r: Option<string>)
      reads this
      ensures r.Some? <==> path in files
      ensures r.Some? ==> r.value == files[path]
    {
      if path in files then Some(files[path]) else None
    }

    /** `fs.readdir(dir)`, `None` where it throws. */
    function ReadDir(dir: string): (r: Option<seq<string>>)
      reads this
      ensures r.Some? <==> dir in listings
      ensures r.Some? ==> r.value == listings[dir]
    {
      if dir in listings then Some(listings[dir]) else None
    }

    /** `fs.mkdir(dir, { recursive: true })` */
    method MakeDirectory(dir: string)
      modifies this
      ensures files == old(files)
      ensures listings == WithDirectory(old(listings), dir)
    {
      listings := WithDirectory(listings, dir);
    }

    /** `ensureContextDirectory(projectPath)`: the four directories, then
        the initial configuration where `fs.access` finds none.
        `configText` is the `JSON.stringify` rendering of the defaults. */
    method EnsureContextDirectory(projectPath: string, configText: string)
      modifies this
      ensures files == WithInitialConfig(old(files), projectPath, configText)
      ensures listings == ContextListings(old(listings), old(files), projectPath)
    {
      MakeDirectory(ContextDir(projectPath));
      MakeDirectory(SessionsDir(projectPath));
      MakeDirectory(ProgressDir(projectPath));
      MakeDirectory(ArtifactsDir(projectPath));
      if ConfigPath(projectPath) !in files {
        WriteFile(ContextDir(projectPath), ConfigFile, configText);
      }
    }

    /** `fs.writeFile(path.join(dir, name), content)`: the file is replaced
        and its name listed once in its directory. */
    method WriteFile(dir: string, name: string, content: string)
      modifies this
      ensures files == old(files)[PathJoin(dir, name) := content]
      ensures listings == AfterWrite(old(listings), dir, name)
    {
      files := files[PathJoin(dir, name) := content];
      listings := AfterWrite(listings, dir, name);
    }
  }
}
