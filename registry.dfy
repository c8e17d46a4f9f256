/**
 * The OCI registry getter of Helm's experimental registry package: it turns
 * a chart URL into a registry reference, pulls and loads the chart through
 * a registry client, serialises it into a buffer, and names the archive.
 *
 * Everything the getter delegates to is a parameter here: URL parsing and
 * printing, ParseReference, chartutil.Write and loader.LoadArchive are the
 * arrows of a `Library`; the client's PullChart and LoadChart answer from
 * the arrows of a `Remote` and log each call, so that the order of the
 * stages and the point where a failure stops them can be observed.
 */
module Registry {
  import opened Wrappers
  import Strings
  import FilePath

  newtype byte = x: int | 0 <= x < 256

  /** A Go error value. */
  datatype Error = Error(message: string)

  /** The error GetWithDetails raises when neither a tag nor a version is given. */
  const ErrNoVersionOrTag := Error("no version or tag provided")

  /** A registry reference (repository and tag) as ParseReference builds it. */
  datatype Reference = Reference(repository: string, tag: string)

  datatype Metadata = Metadata(name: string, version: string)

  /** A loaded chart; only its metadata matters to the getter. */
  datatype Chart = Chart(metadata: Metadata)

  /** The value of a `url.URL`: the fields this getter reads or writes. */
  datatype UrlFields = UrlFields(scheme: string, host: string, path: string, rawQuery: string)

  /** The functions the getter calls that live outside this file. */
  datatype Library = Library(
    parseUrl: string -> Result<UrlFields, Error>,             // url.Parse
    formatUrl: UrlFields -> string,                          // (*url.URL).String
    parseReference: string -> Result<Reference, Error>,      // ParseReference
    writeChart: Chart -> (seq<byte>, Option<Error>),         // chartutil.Write: bytes written, error
    loadArchive: seq<byte> -> (Option<Chart>, Option<Error>) // loader.LoadArchive: chart or nil, error
  )

  /** What the registry answers to a pull and to a load of a reference. */
  datatype Remote = Remote(
    pull: Reference -> Option<Error>,
    load: Reference -> Result<Chart, Error>
  )

  /** A call made to the registry client. */
  datatype Call = Pull(ref: Reference) | Load(ref: Reference)

  /** Printing the URL `v` and parsing it back gives `v` again. */
  predicate PrintsBack(lib: Library, v: UrlFields)
  {
    lib.parseUrl(lib.formatUrl(v)) == Ok(v)
  }


  // ---------------------------------------------------------------------
  // Tag and version reconciliation, and the archive file name.
  // ---------------------------------------------------------------------

  /** The final element of the path split on ':'. */
  function TagParts(path: string): (parts: seq<string>)
  {
    Strings.Split(FilePath.Base(path), ':')
  }

  /** The number of ':' in the final element of the path. */
  function Colons(path: string): (n: nat)
  {
    multiset(FilePath.Base(path))[':']
  }

  /**
   * The decision GetWithDetails makes before fetching: the path it goes on
   * with, or the error it returns. A tag in the URL wins over `version`;
   * with no tag the version is appended; with two or more colons the
   * version is appended even when it is empty.
   */
  function Reconcile(path: string, version: string): (r: Result<string, Error>)
    ensures r.Err? <==> Colons(path) == 0 && version == ""
    ensures r.Err? ==> r.error == ErrNoVersionOrTag
    ensures Colons(path) == 1 ==> r == Ok(path)
    ensures Colons(path) == 0 && version != "" ==> r == Ok(path + ":" + version)
    ensures Colons(path) >= 2 ==> r == Ok(path + ":" + version)
  {
    var parts := TagParts(path);
    if |parts| == 1 && version == "" then Err(ErrNoVersionOrTag)
    else if |parts| != 2 then Ok(path + ":" + version)
    else Ok(path)
  }

  /**
   * The archive name: the final path element up to its first ':', then
   * "-", the version and ".tgz".
   */
  function Filename(path: string, version: string): (name: string)
    ensures var b := FilePath.Base(path);
      name == b[..Strings.FirstIndexOf(b, ':')] + "-" + version + ".tgz"
  {
    Strings.SplitFirst(FilePath.Base(path), ':');
    TagParts(path)[0] + "-" + version + ".tgz"
  }

  // ---------------------------------------------------------------------
  // The fetch pipeline and the details around it, as values.
  // ---------------------------------------------------------------------

  /** What Get produces: the buffer's contents (None for nil), its error, and the client calls it made. */
  datatype Fetched = Fetched(content: Option<seq<byte>>, err: Option<Error>, calls: seq<Call>)

  /**
   * Get on `href`: parse the URL, resolve host and path to a reference,
   * pull, load, write. The first stage that fails ends the pipeline with
   * no buffer and that stage's error; once the chart is loaded the buffer
   * is returned together with whatever error writing produced.
   */
  function Fetch(lib: Library, remote: Remote, href: string): (f: Fetched)
    ensures f.content.None? ==> f.err.Some?
    ensures f.calls == [] ||
      f.calls == [Pull(f.calls[0].ref)] ||
      f.calls == [Pull(f.calls[0].ref), Load(f.calls[0].ref)]
    ensures |f.calls| == 1 ==> f.content.None? && f.err == remote.pull(f.calls[0].ref) && f.err.Some?
    ensures |f.calls| == 2 ==> remote.pull(f.calls[0].ref).None?
    ensures f.content.Some? ==>
      |f.calls| == 2 && remote.load(f.calls[0].ref).Ok? &&
      (f.content.value, f.err) == lib.writeChart(remote.load(f.calls[0].ref).value)
  {
    match lib.parseUrl(href)
    case Err(e) => Fetched(None, Some(e), [])
    case Ok(u) =>
      match lib.parseReference(u.host + u.path)
      case Err(e) => Fetched(None, Some(e), [])
      case Ok(ref) =>
        match remote.pull(ref)
        case Some(e) => Fetched(None, Some(e), [Pull(ref)])
        case None =>
          match remote.load(ref)
          case Err(e) => Fetched(None, Some(e), [Pull(ref), Load(ref)])
          case Ok(c) =>
            var (written, err) := lib.writeChart(c);
            Fetched(Some(written), err, [Pull(ref), Load(ref)])
  }

  /** What GetWithDetails produces: the URL's new path, the response's content and file name, the error and the client calls. */
  datatype Details = Details(path: string, content: Option<seq<byte>>, filename: string, err: Option<Error>, calls: seq<Call>)

  /**
   * loader.LoadArchive returns a chart for the buffer that Get returned
   * without error on the rewritten URL. GetWithDetails reads the chart's
   * metadata without looking at the loader's error, so when this fails the
   * source dereferences a nil chart.
   */
  predicate LoadsFetched(lib: Library, remote: Remote, u: UrlFields, version: string)
  {
    match Reconcile(u.path, version)
    case Err(_) => true
    case Ok(path) =>
      var f := Fetch(lib, remote, lib.formatUrl(u.(path := path)));
      f.err.None? ==> lib.loadArchive(f.content.value).0.Some?
  }

  /**
   * GetWithDetails on a URL and a version: reconcile, run Get on the printed
   * URL, and on success name the archive after the version in the loaded
   * archive's own metadata.
   */
  function WithDetails(lib: Library, remote: Remote, u: UrlFields, version: string): (d: Details)
    requires LoadsFetched(lib, remote, u, version)
    ensures Reconcile(u.path, version).Err? ==>
      d == Details(u.path, None, "", Some(ErrNoVersionOrTag), [])
    ensures Reconcile(u.path, version).Ok? ==>
      var f := Fetch(lib, remote, lib.formatUrl(u.(path := d.path)));
      d.path == Reconcile(u.path, version).value &&
      d.calls == f.calls &&
      (f.err.Some? ==> d == Details(d.path, None, "", f.err, f.calls)) &&
      (f.err.None? ==>
        var (ch, err) := lib.loadArchive(f.content.value);
        d == Details(d.path, f.content, Filename(d.path, ch.value.metadata.version), err, f.calls))
    ensures d.content.None? ==> d.filename == "" && d.err.Some?
    ensures d.content.Some? ==>
      lib.loadArchive(d.content.value).0.Some? &&
      d.filename == Filename(d.path, lib.loadArchive(d.content.value).0.value.metadata.version) &&
      d.err == lib.loadArchive(d.content.value).1
  {
    match Reconcile(u.path, version)
    case Err(e) => Details(u.path, None, "", Some(e), [])
    case Ok(path) =>
      var f := Fetch(lib, remote, lib.formatUrl(u.(path := path)));
      if f.err.Some? then Details(path, None, "", f.err, f.calls)
      else
        var (ch, err) := lib.loadArchive(f.content.value);
        Details(path, f.content, Filename(path, ch.value.metadata.version), err, f.calls)
  }

  // ---------------------------------------------------------------------
  // Properties of reconciliation and naming.
  // ---------------------------------------------------------------------

  /**
   * A path without a tag whose final element is a plain name gets `version`
   * as its tag: the new final element splits into the old one and
   * `version`, and reconciling the new path again changes nothing.
   */
  lemma ReconcileAddsTag(path: string, version: string)
    requires path != [] && path[|path| - 1] != '/'
    requires Colons(path) == 0
    requires version != [] && '/' !in version && ':' !in version
    ensures Reconcile(path, version) == Ok(path + ":" + version)
    ensures TagParts(path + ":" + version) == [FilePath.Base(path), version]
    ensures forall w :: Reconcile(path + ":" + version, w) == Ok(path + ":" + version)
  {
    var b := FilePath.Base(path);
    TaggedBase(path, version);
    assert ':' !in b by {
      Strings.SplitOnePart(b, ':');
    }
    OneColon(b, version);
    Strings.SplitPair(b, version, ':');
  }

  /** The final element of `path:version` is the old final element, ':' and the version. */
  lemma TaggedBase(path: string, version: string)
    requires path != [] && path[|path| - 1] != '/'
    requires '/' !in version
    ensures FilePath.Base(path + ":" + version) == FilePath.Base(path) + [':'] + version
  {
    var t := ":" + version;
    assert path + ":" + version == path + t;
    FilePath.BaseAppend(path, t);
    assert FilePath.Base(path) + t == FilePath.Base(path) + [':'] + version;
  }

  lemma OneColon(a: string, b: string)
    requires ':' !in a && ':' !in b
    ensures multiset(a + [':'] + b)[':'] == 1
  {
    assert multiset(a + [':'] + b) == multiset(a) + multiset{':'} + multiset(b);
    assert multiset(a)[':'] == 0 && multiset(b)[':'] == 0;
  }

  /** A tag appended to the path never reaches the file name. */
  lemma FilenameDropsTag(path: string, tag: string, version: string)
    requires path != [] && path[|path| - 1] != '/'
    requires '/' !in tag
    ensures Filename(path + ":" + tag, version) == Filename(path, version)
  {
    var t := ":" + tag;
    assert path + ":" + tag == path + t;
    FilePath.BaseAppend(path, t);
    BeforeColonAppend(FilePath.Base(path), t);
  }

  /** Text that starts with ':' does not change what comes before the first ':'. */
  lemma BeforeColonAppend(b: string, t: string)
    requires t != [] && t[0] == ':'
    ensures (b + t)[..Strings.FirstIndexOf(b + t, ':')] == b[..Strings.FirstIndexOf(b, ':')]
  {
    var k := Strings.FirstIndexOf(b, ':');
    if ':' in b {
      Strings.FirstIndexOfAppend(b, t, ':');
    } else {
      Strings.FirstIndexOfAfter(b, t, ':');
    }
    assert (b + t)[..k] == b[..k];
  }

  /** The file name of `dir/name:tag`, or of `dir/name`, is `name-version.tgz`. */
  lemma FilenameOfChart(dir: string, name: string, tag: string, version: string)
    requires name != [] && '/' !in name && ':' !in name
    requires '/' !in tag
    ensures Filename(dir + "/" + name, version) == name + "-" + version + ".tgz"
    ensures Filename(dir + "/" + name + ":" + tag, version) == name + "-" + version + ".tgz"
  {
    var p := dir + "/" + name;
    FilePath.BaseOfChild(dir, name);
    assert Strings.FirstIndexOf(name, ':') == |name|;
    assert name[..|name|] == name;
    assert p[|p| - 1] == name[|name| - 1];
    FilenameDropsTag(p, tag, version);
  }

  /** Without ':' in the version, the file name holds no ':' at all. */
  lemma FilenameHasNoColon(path: string, version: string)
    requires ':' !in version
    ensures ':' !in Filename(path, version)
  {
    var b := FilePath.Base(path);
    var p := b[..Strings.FirstIndexOf(b, ':')];
    assert ':' !in p;
    assert ':' !in "-" && ':' !in ".tgz";
    assert Filename(path, version) == p + "-" + version + ".tgz";
  }

  /**
   * The example of the chart `mychart` in `/charts`, tagged `v1.2.3`. The
   * parameters `dir` and `name` are the directory and chart name the path is
   * made of; they are parameters rather than local literals to keep the
   * proof small.
   */
  lemma FilenameExample(dir: string, name: string, path: string, version: string)
    requires dir == "/charts" && name == "mychart"
    requires path == "/charts/mychart:v1.2.3" && version == "v1.2.3"
    ensures path == dir + "/" + name + ":" + version
    ensures Filename(path, version) == name + "-" + version + ".tgz" == "mychart-v1.2.3.tgz"
  {
    assert path == dir + "/" + name + ":" + version;
    assert name + "-" + version + ".tgz" == "mychart-v1.2.3.tgz";
    assert '/' !in name && ':' !in name;
    assert '/' !in version;
    FilenameOfChart(dir, name, version, version);
  }

  /**
   * A trailing '/' is dropped when the tag is looked for but not when the
   * version is appended, so the version becomes a path element of its own
   * and the file name loses the chart name. The parameter `rewritten` is the
   * path GetWithDetails goes on with.
   */
  lemma TrailingSlashEdge(path: string, version: string, rewritten: string)
    requires path == "/charts/mychart/" && version == "1.0" && rewritten == "/charts/mychart/:1.0"
    ensures Colons(path) == 0
    ensures Reconcile(path, version) == Ok(rewritten)
    ensures Filename(rewritten, version) == "-1.0.tgz"
  {
    var trimmed := path[..|path| - 1];
    TrailingSlashBase(path, trimmed);
    assert rewritten == path + ":" + version;
    TrailingSlashFilename(trimmed, rewritten[|path|..], rewritten, version);
  }

  lemma TrailingSlashFilename(trimmed: string, last: string, rewritten: string, version: string)
    requires trimmed == "/charts/mychart" && last == ":1.0"
    requires rewritten == "/charts/mychart/:1.0" && version == "1.0"
    ensures Filename(rewritten, version) == "-1.0.tgz"
  {
    assert rewritten == trimmed + "/" + last;
    assert "-" + version + ".tgz" == "-1.0.tgz";
    assert '/' !in last && last[0] == ':';
    FilenameOfBareTag(trimmed, last, version);
  }

  lemma TrailingSlashBase(path: string, trimmed: string)
    requires path == "/charts/mychart/" && trimmed == "/charts/mychart"
    ensures Colons(path) == 0
  {
    var dir, name := "/charts", "mychart";
    assert path == trimmed + "/";
    assert trimmed == dir + "/" + name;
    assert '/' !in name && ':' !in name;
    assert FilePath.TrimTrailingSlashes(path) == FilePath.TrimTrailingSlashes(trimmed);
    FilePath.BaseOfChild(dir, name);
  }

  /** A final path element that starts with ':' gives a file name with no chart name. */
  lemma FilenameOfBareTag(dir: string, last: string, version: string)
    requires last != [] && last[0] == ':' && '/' !in last
    ensures Filename(dir + "/" + last, version) == "-" + version + ".tgz"
  {
    FilePath.BaseOfChild(dir, last);
    assert Strings.FirstIndexOf(last, ':') == 0;
    assert last[..0] + "-" == "-";
  }

  // ---------------------------------------------------------------------
  // Properties of the fetch pipeline.
  // ---------------------------------------------------------------------

  /**
   * Each stage of Get, in order: a failure returns no buffer and that
   * stage's error unchanged and calls nothing further; the reference is
   * resolved from exactly host + path; after a successful load the buffer
   * is returned even when writing fails.
   */
  lemma FetchStages(lib: Library, remote: Remote, href: string)
    ensures lib.parseUrl(href).Err? ==>
      Fetch(lib, remote, href) == Fetched(None, Some(lib.parseUrl(href).error), [])
    ensures lib.parseUrl(href).Ok? ==>
      var u := lib.parseUrl(href).value;
      var resolved := lib.parseReference(u.host + u.path);
      (resolved.Err? ==> Fetch(lib, remote, href) == Fetched(None, Some(resolved.error), [])) &&
      (resolved.Ok? ==>
        var ref := resolved.value;
        (remote.pull(ref).Some? ==>
          Fetch(lib, remote, href) == Fetched(None, remote.pull(ref), [Pull(ref)])) &&
        (remote.pull(ref).None? && remote.load(ref).Err? ==>
          Fetch(lib, remote, href) == Fetched(None, Some(remote.load(ref).error), [Pull(ref), Load(ref)])) &&
        (remote.pull(ref).None? && remote.load(ref).Ok? ==>
          var (written, err) := lib.writeChart(remote.load(ref).value);
          Fetch(lib, remote, href) == Fetched(Some(written), err, [Pull(ref), Load(ref)])))
  {
  }

  /** The reference pulled is the one ParseReference builds from the parsed URL's host + path. */
  lemma FetchPullsHostAndPath(lib: Library, remote: Remote, href: string, u: UrlFields)
    requires lib.parseUrl(href) == Ok(u)
    requires Fetch(lib, remote, href).calls != []
    ensures lib.parseReference(u.host + u.path).Ok?
    ensures Fetch(lib, remote, href).calls[0] == Pull(lib.parseReference(u.host + u.path).value)
  {
  }

  /** LoadChart is called only on the reference that was pulled, and only once the pull succeeded. */
  lemma LoadOnlyAfterPull(lib: Library, remote: Remote, href: string, ref: Reference)
    requires Load(ref) in Fetch(lib, remote, href).calls
    ensures Fetch(lib, remote, href).calls == [Pull(ref), Load(ref)]
    ensures remote.pull(ref).None?
  {
  }

  // ---------------------------------------------------------------------
  // Properties of GetWithDetails.
  // ---------------------------------------------------------------------

  /** With neither a tag nor a version the request fails before any client call. */
  lemma DetailsMissingVersion(lib: Library, remote: Remote, u: UrlFields)
    requires Colons(u.path) == 0
    ensures WithDetails(lib, remote, u, "") == Details(u.path, None, "", Some(ErrNoVersionOrTag), [])
  {
  }

  /** When the URL carries a tag, the version argument makes no difference at all. */
  lemma DetailsIgnoreVersionWhenTagged(lib: Library, remote: Remote, u: UrlFields, v1: string, v2: string)
    requires LoadsFetched(lib, remote, u, v1) && LoadsFetched(lib, remote, u, v2)
    requires Colons(u.path) == 1
    ensures WithDetails(lib, remote, u, v1) == WithDetails(lib, remote, u, v2)
    ensures WithDetails(lib, remote, u, v1).path == u.path
  {
  }

  /**
   * When the rewritten URL prints and parses back unchanged, the reference pulled is
   * the one ParseReference builds from the host and the reconciled path.
   */
  lemma DetailsPullHostAndPath(lib: Library, remote: Remote, u: UrlFields, version: string)
    requires LoadsFetched(lib, remote, u, version)
    requires Reconcile(u.path, version).Ok? ==> PrintsBack(lib, u.(path := Reconcile(u.path, version).value))
    ensures var d := WithDetails(lib, remote, u, version);
      lib.parseReference(u.host + d.path).Ok? && d.calls != [] ==>
        d.calls[0] == Pull(lib.parseReference(u.host + d.path).value)
  {
    var d := WithDetails(lib, remote, u, version);
    if Reconcile(u.path, version).Ok? {
      var v := u.(path := d.path);
      var href := lib.formatUrl(v);
      assert lib.parseUrl(href) == Ok(v);
      assert d.calls == Fetch(lib, remote, href).calls;
      if d.calls != [] {
        FetchPullsHostAndPath(lib, remote, href, v);
      }
    }
  }

  /** A failed pull ends GetWithDetails with an empty response and the pull's error. */
  lemma DetailsPullFailure(lib: Library, remote: Remote, u: UrlFields, version: string,
                           ref: Reference, e: Error)
    requires LoadsFetched(lib, remote, u, version)
    requires Reconcile(u.path, version).Ok?
    requires PrintsBack(lib, u.(path := Reconcile(u.path, version).value))
    requires lib.parseReference(u.host + Reconcile(u.path, version).value) == Ok(ref)
    requires remote.pull(ref) == Some(e)
    ensures WithDetails(lib, remote, u, version) ==
      Details(Reconcile(u.path, version).value, None, "", Some(e), [Pull(ref)])
  {
    var v := u.(path := Reconcile(u.path, version).value);
    assert lib.parseUrl(lib.formatUrl(v)) == Ok(v);
  }

  /**
   * When writing the loaded chart fails, Get still returns the buffer with
   * the error, but GetWithDetails drops that buffer: the response is empty
   * and carries the write error.
   */
  lemma DetailsWriteFailure(lib: Library, remote: Remote, u: UrlFields, version: string,
                            ref: Reference, c: Chart, e: Error)
    requires LoadsFetched(lib, remote, u, version)
    requires Reconcile(u.path, version).Ok?
    requires PrintsBack(lib, u.(path := Reconcile(u.path, version).value))
    requires lib.parseReference(u.host + Reconcile(u.path, version).value) == Ok(ref)
    requires remote.pull(ref).None? && remote.load(ref) == Ok(c)
    requires lib.writeChart(c).1 == Some(e)
    ensures WithDetails(lib, remote, u, version) ==
      Details(Reconcile(u.path, version).value, None, "", Some(e), [Pull(ref), Load(ref)])
  {
    var v := u.(path := Reconcile(u.path, version).value);
    assert Fetch(lib, remote, lib.formatUrl(v)) == Fetched(Some(lib.writeChart(c).0), Some(e), [Pull(ref), Load(ref)]);
  }

  /** The final element of `dir/name:tag` holds exactly one ':'. */
  lemma TaggedChartPath(dir: string, name: string, tag: string)
    requires name != [] && '/' !in name && ':' !in name
    requires '/' !in tag && ':' !in tag
    ensures Colons(dir + "/" + name + ":" + tag) == 1
  {
    var p := dir + "/" + name;
    FilePath.BaseOfChild(dir, name);
    assert p[|p| - 1] == name[|name| - 1];
    TaggedBase(p, tag);
    OneColon(name, tag);
  }

  /**
   * A URL `dir/name:tag`: the path is kept, the reference is resolved from
   * host + path, and a fetched archive is named after `name` and the
   * version in its own metadata, whatever the tag and the version argument.
   */
  lemma DetailsTaggedUrl(lib: Library, remote: Remote, u: UrlFields, version: string,
                         dir: string, name: string, tag: string)
    requires LoadsFetched(lib, remote, u, version) && PrintsBack(lib, u)
    requires u.path == dir + "/" + name + ":" + tag
    requires name != [] && '/' !in name && ':' !in name
    requires '/' !in tag && ':' !in tag
    ensures var d := WithDetails(lib, remote, u, version);
      d.path == u.path &&
      (lib.parseReference(u.host + u.path).Ok? && d.calls != [] ==>
        d.calls[0] == Pull(lib.parseReference(u.host + u.path).value)) &&
      (d.content.Some? ==>
        d.filename == name + "-" + lib.loadArchive(d.content.value).0.value.metadata.version + ".tgz")
  {
    TaggedChartPath(dir, name, tag);
    DetailsPullHostAndPath(lib, remote, u, version);
    var d := WithDetails(lib, remote, u, version);
    if d.content.Some? {
      FilenameOfChart(dir, name, tag, lib.loadArchive(d.content.value).0.value.metadata.version);
    }
  }

  /**
   * A URL `dir/name` and a version: the path becomes `dir/name:version`,
   * the reference is resolved from host + that path, and a fetched archive
   * is named after `name` and the version in its own metadata.
   */
  lemma DetailsUntaggedUrl(lib: Library, remote: Remote, u: UrlFields, version: string,
                           dir: string, name: string)
    requires LoadsFetched(lib, remote, u, version) && PrintsBack(lib, u.(path := u.path + ":" + version))
    requires u.path == dir + "/" + name
    requires name != [] && '/' !in name && ':' !in name
    requires version != [] && '/' !in version && ':' !in version
    ensures var d := WithDetails(lib, remote, u, version);
      d.path == u.path + ":" + version &&
      (lib.parseReference(u.host + d.path).Ok? && d.calls != [] ==>
        d.calls[0] == Pull(lib.parseReference(u.host + d.path).value)) &&
      (d.content.Some? ==>
        d.filename == name + "-" + lib.loadArchive(d.content.value).0.value.metadata.version + ".tgz")
  {
    FilePath.BaseOfChild(dir, name);
    assert u.path[|u.path| - 1] == name[|name| - 1];
    assert multiset(name)[':'] == 0;
    ReconcileAddsTag(u.path, version);
    DetailsPullHostAndPath(lib, remote, u, version);
    var d := WithDetails(lib, remote, u, version);
    if d.content.Some? {
      assert d.path == dir + "/" + name + ":" + version;
      FilenameOfChart(dir, name, version, lib.loadArchive(d.content.value).0.value.metadata.version);
    }
  }

  // ---------------------------------------------------------------------
  // The objects: URL, buffer, registry client and getter.
  // ---------------------------------------------------------------------

  /** A `*url.URL`, whose path GetWithDetails rewrites in place. */
  class Url {
    var scheme: string
    var host: string
    var path: string
    var rawQuery: string

    constructor (v: UrlFields)
      ensures Fields() == v
    {
      scheme, host, path, rawQuery := v.scheme, v.host, v.path, v.rawQuery;
    }

    function Fields(): (v: UrlFields)
      reads this
    {
      UrlFields(scheme, host, path, rawQuery)
    }
  }

  /** A `*bytes.Buffer`. */
  class Buffer {
    var bytes: seq<byte>

    /** bytes.NewBuffer(nil) */
    constructor ()
      ensures bytes == []
    {
      bytes := [];
    }

    method Write(p: seq<byte>)
      modifies this
      ensures bytes == old(bytes) + p
    {
      bytes := bytes + p;
    }
  }

  /** The registry client, answering from `remote` and logging its calls. */
  class Client {
    const remote: Remote
    var calls: seq<Call>

    constructor (remote: Remote)
      ensures this.remote == remote && calls == []
    {
      this.remote := remote;
      calls := [];
    }

    /** Client.PullChart */
    method PullChart(ref: Reference) returns (err: Option<Error>)
      modifies this
      ensures calls == old(calls) + [Pull(ref)]
      ensures err == remote.pull(ref)
    {
      calls := calls + [Pull(ref)];
      err := remote.pull(ref);
    }

    /** Client.LoadChart */
    method LoadChart(ref: Reference) returns (r: Result<Chart, Error>)
      modifies this
      ensures calls == old(calls) + [Load(ref)]
      ensures r == remote.load(ref)
    {
      calls := calls + [Load(ref)];
      r := remote.load(ref);
    }
  }

  /** getter.ChartResponse */
  datatype ChartResponse = ChartResponse(content: Buffer?, filename: string)

  /** The OCI getter: a registry client, and the library functions it calls. */
  class Getter {
    const client: Client
    const lib: Library

    /** NewRegistryGetter */
    constructor (client: Client, lib: Library)
      ensures this.client == client && this.lib == lib
    {
      this.client := client;
      this.lib := lib;
    }

    method Get(href: string) returns (buf: Buffer?, err: Option<Error>)
      modifies client
      ensures var f := Fetch(lib, client.remote, href);
        client.calls == old(client.calls) + f.calls &&
        err == f.err &&
        (buf == null <==> f.content.None?) &&
        (buf != null ==> fresh(buf) && buf.bytes == f.content.value)
    {
      var parsed := lib.parseUrl(href);
      if parsed.Err? {
        return null, Some(parsed.error);
      }
      var u := parsed.value;
      var resolved := lib.parseReference(u.host + u.path);
      if resolved.Err? {
        return null, Some(resolved.error);
      }
      var ref := resolved.value;
      // first the chart is pulled
      var pullErr := client.PullChart(ref);
      if pullErr.Some? {
        return null, pullErr;
      }
      // then, once it is known to be present, loaded
      var loaded := client.LoadChart(ref);
      if loaded.Err? {
        return null, Some(loaded.error);
      }
      buf := new Buffer();
      // and finally written, tarred and gzipped, to the buffer
      var (written, writeErr) := lib.writeChart(loaded.value);
      buf.Write(written);
      err := writeErr;
    }

    method GetWithDetails(u: Url, version: string) returns (resp: ChartResponse, err: Option<Error>)
      requires LoadsFetched(lib, client.remote, u.Fields(), version)
      modifies u`path, client
      ensures var d := WithDetails(lib, client.remote, old(u.Fields()), version);
        u.path == d.path &&
        client.calls == old(client.calls) + d.calls &&
        err == d.err &&
        (resp.content == null <==> d.content.None?) &&
        (resp.content != null ==> fresh(resp.content) && resp.content.bytes == d.content.value) &&
        resp.filename == d.filename
      ensures u.scheme == old(u.scheme) && u.host == old(u.host) && u.rawQuery == old(u.rawQuery)
    {
      ghost var v0 := u.Fields();
      var parts := Strings.Split(FilePath.Base(u.path), ':');
      if |parts| == 1 && version == "" {
        return ChartResponse(null, ""), Some(ErrNoVersionOrTag);
      }
      if |parts| != 2 {
        u.path := u.path + ":" + version;
      }
      assert Reconcile(v0.path, version) == Ok(u.path);
      assert u.Fields() == v0.(path := u.path);
      var res;
      res, err := Get(lib.formatUrl(u.Fields()));
      if err.Some? {
        return ChartResponse(null, ""), err;
      }
      var (ch, loadErr) := lib.loadArchive(res.bytes);
      resp := ChartResponse(res, Filename(u.path, ch.value.metadata.version));
      err := loadErr;
    }
  }
}
