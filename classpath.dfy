/** The JVM class path of a ZooKeeper server: its components, their
    ':'-separated command-line form, and the search for the system's JARs.
    Whether a file exists is a parameter (`probe`), as the operating system's
    `stat` call lies outside the model. */
module Classpath {
  import opened Wrappers
  import opened Text

  /** The directories searched, in order. */
  const Locations: seq<string> := ["/usr/share/java", "/usr/local/share/java"]

  /** The JARs the server needs, in order. */
  const Requirements: seq<string> := ["zookeeper.jar", "slf4j-api.jar", "slf4j-simple.jar"]

  /** `classpath`: the components in the order they were given. */
  datatype Classpath = Classpath(components: seq<string>)
  {
    /** `command_line` / `operator<<`: the components with ':' between them. */
    function CommandLine(): string
    {
      Join(components, ":")
    }
  }

  /** What `stat` reports for one path: the file is there, it is not
      (`ENOENT`), or the call failed with another `errno`. */
  datatype Probe = Present | Absent | Failed(errno: int)

  /** What `find_system_default` throws: a `runtime_error` naming the missing
      JARs, or the `system_error` of a failed `stat`. */
  datatype SearchError = Missing(message: string) | SystemError(errno: int)

  /** The candidate file for `jar` under `location`. */
  function PathOf(location: string, jar: string): string
  {
    location + "/" + jar
  }

  /** The inner search for one JAR: the first location holding it, none when
      every location reports it absent, or the first failed probe. */
  function Locate(jar: string, locations: seq<string>, probe: string -> Probe): Result<Option<string>, int>
    decreases |locations|
  {
    if |locations| == 0 then Ok(None)
    else
      match probe(PathOf(locations[0], jar))
      case Present => Ok(Some(PathOf(locations[0], jar)))
      case Absent => Locate(jar, locations[1..], probe)
      case Failed(errno) => Err(errno)
  }

  /** No earlier location than `j` holds `jar`. */
  predicate AbsentBefore(jar: string, locations: seq<string>, probe: string -> Probe, j: nat)
    requires j <= |locations|
  {
    forall k :: 0 <= k < j ==> probe(PathOf(locations[k], jar)) == Absent
  }

  /** A found JAR is at the first location that holds it, every earlier one
      having reported it absent. */
  lemma {:induction false} LocateFound(jar: string, locations: seq<string>, probe: string -> Probe)
    requires Locate(jar, locations, probe).Ok? && Locate(jar, locations, probe).value.Some?
    ensures exists j :: 0 <= j < |locations| && AbsentBefore(jar, locations, probe, j)
                        && probe(PathOf(locations[j], jar)) == Present
                        && Locate(jar, locations, probe).value.value == PathOf(locations[j], jar)
    decreases |locations|
  {
    if probe(PathOf(locations[0], jar)) == Present {
      assert AbsentBefore(jar, locations, probe, 0);
    } else {
      var rest := locations[1..];
      LocateFound(jar, rest, probe);
      var j :| 0 <= j < |rest| && AbsentBefore(jar, rest, probe, j)
               && probe(PathOf(rest[j], jar)) == Present
               && Locate(jar, rest, probe).value.value == PathOf(rest[j], jar);
      assert AbsentBefore(jar, locations, probe, j + 1) by {
        forall k | 0 <= k < j + 1
          ensures probe(PathOf(locations[k], jar)) == Absent
        {
          if k > 0 {
            assert locations[k] == rest[k - 1];
          }
        }
      }
      assert locations[j + 1] == rest[j];
    }
  }

  /** Conversely, a first location that holds the JAR is the one chosen. */
  lemma {:induction false} LocateFirst(jar: string, locations: seq<string>, probe: string -> Probe, j: nat)
    requires j < |locations| && AbsentBefore(jar, locations, probe, j)
    requires probe(PathOf(locations[j], jar)) == Present
    ensures Locate(jar, locations, probe) == Ok(Some(PathOf(locations[j], jar)))
    decreases j
  {
    if j > 0 {
      var rest := locations[1..];
      assert probe(PathOf(locations[0], jar)) == Absent;
      assert AbsentBefore(jar, rest, probe, j - 1) by {
        forall k | 0 <= k < j - 1
          ensures probe(PathOf(rest[k], jar)) == Absent
        {
          assert rest[k] == locations[k + 1];
        }
      }
      assert rest[j - 1] == locations[j];
      LocateFirst(jar, rest, probe, j - 1);
    }
  }

  /** A JAR is reported missing exactly when every location reports it absent. */
  lemma {:induction false} LocateMissing(jar: string, locations: seq<string>, probe: string -> Probe)
    ensures Locate(jar, locations, probe) == Ok(None) <==> AbsentBefore(jar, locations, probe, |locations|)
    decreases |locations|
  {
    if |locations| > 0 {
      var rest := locations[1..];
      LocateMissing(jar, rest, probe);
      if AbsentBefore(jar, rest, probe, |rest|) && probe(PathOf(locations[0], jar)) == Absent {
        forall k | 0 <= k < |locations|
          ensures probe(PathOf(locations[k], jar)) == Absent
        {
          if k > 0 {
            assert locations[k] == rest[k - 1];
          }
        }
      }
      if AbsentBefore(jar, locations, probe, |locations|) {
        forall k | 0 <= k < |rest|
          ensures probe(PathOf(rest[k], jar)) == Absent
        {
          assert rest[k] == locations[k + 1];
        }
      }
    }
  }

  /** The outer search over `jars`: the paths found and the JARs missing, both
      in order, or the first failed probe. */
  datatype Gathered = Gathered(components: seq<string>, unfound: seq<string>)

  function Gather(jars: seq<string>, probe: string -> Probe): Result<Gathered, int>
    decreases |jars|
  {
    if |jars| == 0 then Ok(Gathered([], []))
    else
      var jar := jars[|jars| - 1];
      match Gather(jars[..|jars| - 1], probe)
      case Err(errno) => Err(errno)
      case Ok(g) =>
        match Locate(jar, Locations, probe)
        case Err(errno) => Err(errno)
        case Ok(None) => Ok(g.(unfound := g.unfound + [jar]))
        case Ok(Some(path)) => Ok(g.(components := g.components + [path]))
  }

  /** The search fails exactly when some probe fails; otherwise every JAR is
      either found or missing, nothing is missing exactly when every JAR was
      found, and then component `i` is where JAR `i` was found. */
  lemma {:induction false} GatherSpec(jars: seq<string>, probe: string -> Probe)
    ensures Gather(jars, probe).Ok? <==> forall i :: 0 <= i < |jars| ==> Locate(jars[i], Locations, probe).Ok?
    ensures Gather(jars, probe).Ok? ==>
              var g := Gather(jars, probe).value;
              && |g.components| + |g.unfound| == |jars|
              && (g.unfound == [] <==> forall i :: 0 <= i < |jars| ==> Locate(jars[i], Locations, probe).value.Some?)
              && (g.unfound == [] ==> forall i :: 0 <= i < |jars| ==> g.components[i] == Locate(jars[i], Locations, probe).value.value)
              && (forall x :: x in g.unfound ==> exists i :: 0 <= i < |jars| && jars[i] == x && Locate(jars[i], Locations, probe) == Ok(None))
    decreases |jars|
  {
    if |jars| > 0 {
      var n := |jars|;
      var init := jars[..n - 1];
      GatherSpec(init, probe);
      assert forall i :: 0 <= i < n - 1 ==> init[i] == jars[i];
    }
  }

  /** One step of the outer search on a prefix of `jars`. */
  lemma GatherNext(jars: seq<string>, probe: string -> Probe, n: nat, g: Gathered, found: Option<string>)
    requires 0 < n <= |jars|
    requires Gather(jars[..n - 1], probe) == Ok(g) && Locate(jars[n - 1], Locations, probe) == Ok(found)
    ensures Gather(jars[..n], probe)
            == Ok(if found.Some? then g.(components := g.components + [found.value])
                  else g.(unfound := g.unfound + [jars[n - 1]]))
  {
    assert jars[..n][..n - 1] == jars[..n - 1];
  }

  /** The text of the `runtime_error` for the JARs in `unfound`. */
  function MissingMessage(unfound: seq<string>): string
  {
    "Could not find requirement" + (if |unfound| == 1 then "" else "s") + ": "
    + Join(unfound, ", ") + ". Searched paths: " + Join(Locations, ", ")
  }

  /** The message uses the singular exactly when one JAR is missing, and
      lists the missing JARs right after the colon. */
  lemma MissingMessageForm(unfound: seq<string>)
    ensures var m := MissingMessage(unfound);
            var head := if |unfound| == 1 then "Could not find requirement: " else "Could not find requirements: ";
            && |head| <= |m| && m[..|head|] == head
            && m[|head|..|head| + |Join(unfound, ", ")|] == Join(unfound, ", ")
  {
  }

  /** `find_system_default` as a value. */
  function Search(probe: string -> Probe): Result<Classpath, SearchError>
  {
    match Gather(Requirements, probe)
    case Err(errno) => Err(SystemError(errno))
    case Ok(g) =>
      if g.unfound == [] then Ok(Classpath(g.components))
      else Err(Missing(MissingMessage(g.unfound)))
  }

  /** A successful search has one component per requirement, in requirement
      order, each the first location that holds that JAR. */
  lemma SearchFound(probe: string -> Probe)
    requires Search(probe).Ok?
    ensures |Search(probe).value.components| == |Requirements|
    ensures forall i :: 0 <= i < |Requirements| ==>
              Locate(Requirements[i], Locations, probe) == Ok(Some(Search(probe).value.components[i]))
  {
    GatherSpec(Requirements, probe);
  }

  /** When every JAR sits in the first location, the class path is the three
      JARs under that location, in requirement order. */
  lemma AllInFirstLocation(probe: string -> Probe)
    requires forall k :: 0 <= k < |Requirements| ==> probe(PathOf(Locations[0], Requirements[k])) == Present
    ensures Search(probe) == Ok(Classpath(FirstLocationPaths()))
  {
    var r, l, paths := Requirements, Locations, FirstLocationPaths();
    forall k | 0 <= k < 3
      ensures Locate(r[k], l, probe) == Ok(Some(paths[k]))
    {
      LocateFirst(r[k], l, probe, 0);
    }
    assert r[..0] == [] && r[..3] == r;
    GatherNext(r, probe, 1, Gathered([], []), Some(paths[0]));
    assert [] + [paths[0]] == paths[..1];
    GatherNext(r, probe, 2, Gathered(paths[..1], []), Some(paths[1]));
    assert paths[..1] + [paths[1]] == paths[..2];
    GatherNext(r, probe, 3, Gathered(paths[..2], []), Some(paths[2]));
    assert paths[..2] + [paths[2]] == paths;
  }

  /** The three JARs under /usr/share/java. */
  function FirstLocationPaths(): (r: seq<string>)
    ensures |r| == |Requirements| && forall k :: 0 <= k < |r| ==> r[k] == PathOf(Locations[0], Requirements[k])
  {
    seq(|Requirements|, k requires 0 <= k < |Requirements| => PathOf(Locations[0], Requirements[k]))
  }

  /** Those paths spelled out, and the command line they give. */
  lemma FirstLocationCommandLine()
    ensures FirstLocationPaths() == ["/usr/share/java/zookeeper.jar", "/usr/share/java/slf4j-api.jar", "/usr/share/java/slf4j-simple.jar"]
    ensures Classpath(FirstLocationPaths()).CommandLine()
            == "/usr/share/java/zookeeper.jar" + ":" + "/usr/share/java/slf4j-api.jar" + ":" + "/usr/share/java/slf4j-simple.jar"
  {
    var p := FirstLocationPaths();
    assert p[0] == "/usr/share/java/zookeeper.jar";
    assert p[1] == "/usr/share/java/slf4j-api.jar";
    assert p[2] == "/usr/share/java/slf4j-simple.jar";
    assert p == [p[0], p[1], p[2]];
    JoinThree(p[0], p[1], p[2], ":");
  }

  /** A JAR found nowhere makes the search report it alone, in the singular. */
  lemma OneMissing(probe: string -> Probe)
    requires probe(PathOf(Locations[0], Requirements[0])) == Present
    requires probe(PathOf(Locations[0], Requirements[1])) == Present
    requires forall k :: 0 <= k < |Locations| ==> probe(PathOf(Locations[k], Requirements[2])) == Absent
    ensures Search(probe) == Err(Missing(MissingMessage([Requirements[2]])))
  {
    var r, l := Requirements, Locations;
    LocateFirst(r[0], l, probe, 0);
    LocateFirst(r[1], l, probe, 0);
    LocateMissing(r[2], l, probe);
    var p0, p1 := PathOf(l[0], r[0]), PathOf(l[0], r[1]);
    assert r[..0] == [] && r[..3] == r;
    GatherNext(r, probe, 1, Gathered([], []), Some(p0));
    assert [] + [p0] == [p0];
    GatherNext(r, probe, 2, Gathered([p0], []), Some(p1));
    assert [p0] + [p1] == [p0, p1];
    GatherNext(r, probe, 3, Gathered([p0, p1], []), None);
    assert [] + [r[2]] == [r[2]];
  }

  /** The message for a single missing JAR, spelled out. */
  lemma OneMissingMessage()
    ensures MissingMessage([Requirements[2]])
            == "Could not find requirement" + ": " + "slf4j-simple.jar" + ". Searched paths: " + "/usr/share/java" + ", " + "/usr/local/share/java"
  {
    JoinTwo(Locations[0], Locations[1], ", ");
    assert Join([Requirements[2]], ", ") == "slf4j-simple.jar";
  }

  /** The command line reads back into the components when there is at least
      one and none contains ':'. */
  lemma CommandLineRoundTrip(cp: Classpath)
    requires |cp.components| > 0
    requires forall k :: 0 <= k < |cp.components| ==> ':' !in cp.components[k]
    ensures Split(cp.CommandLine(), ':') == cp.components
  {
    SplitJoin(cp.components, ':');
  }

  /** `join` writes no separator for zero or one element, and one per gap
      otherwise. */
  lemma CommandLineSeparators(cp: Classpath)
    ensures |cp.components| == 0 ==> cp.CommandLine() == ""
    ensures |cp.components| == 1 ==> cp.CommandLine() == cp.components[0]
    ensures |cp.components| > 0 ==> |cp.CommandLine()| == TotalLength(cp.components) + |cp.components| - 1
  {
    JoinLength(cp.components, ":");
  }

  /** A failed probe ends the search: once a prefix of the JARs fails, so
      does the whole list, with the same `errno`. */
  lemma {:induction false} GatherFailurePersists(jars: seq<string>, probe: string -> Probe, i: nat)
    requires i <= |jars| && Gather(jars[..i], probe).Err?
    ensures Gather(jars, probe) == Gather(jars[..i], probe)
    decreases |jars| - i
  {
    if i < |jars| {
      assert jars[..i + 1][..i] == jars[..i];
      GatherFailurePersists(jars, probe, i + 1);
    } else {
      assert jars[..i] == jars;
    }
  }

  /** The search itself: for each requirement in turn, the locations in turn
      until one holds it; a failed probe ends the search. */
  method FindSystemDefault(probe: string -> Probe) returns (r: Result<Classpath, SearchError>)
    ensures r == Search(probe)
  {
    var components: seq<string> := [];
    var unfound: seq<string> := [];
    for i := 0 to |Requirements|
      invariant Gather(Requirements[..i], probe) == Ok(Gathered(components, unfound))
    {
      var jar := Requirements[i];
      assert Requirements[..i + 1][..i] == Requirements[..i];
      var found: Option<string> := None;
      var j := 0;
      while j < |Locations| && found.None?
        invariant 0 <= j <= |Locations|
        invariant found.None? ==> Locate(jar, Locations, probe) == Locate(jar, Locations[j..], probe)
        invariant found.Some? ==> Locate(jar, Locations, probe) == Ok(found)
      {
        var potential := PathOf(Locations[j], jar);
        assert Locations[j..][0] == Locations[j] && Locations[j..][1..] == Locations[j + 1..];
        match probe(potential) {
          case Failed(errno) =>
            GatherFailurePersists(Requirements, probe, i + 1);
            return Err(SystemError(errno));
          case Present =>
            found := Some(potential);
          case Absent =>
        }
        j := j + 1;
      }
      if found.Some? {
        components := components + [found.value];
      } else {
        unfound := unfound + [jar];
      }
    }
    assert Requirements[..|Requirements|] == Requirements;
    if unfound == [] {
      r := Ok(Classpath(components));
    } else {
      r := Err(Missing(MissingMessage(unfound)));
    }
  }

  /** `system_default`'s function-local static: set by the first call whose
      search succeeds. A search that throws leaves it unset, so the next call
      searches again. */
  class SystemDefault {
    var instance: Option<Classpath>

    constructor()
      ensures instance == None
    {
      instance := None;
    }

    method Get(probe: string -> Probe) returns (r: Result<Classpath, SearchError>)
      modifies this
      ensures old(instance).Some? ==> r == Ok(old(instance).value) && instance == old(instance)
      ensures old(instance).None? ==> r == Search(probe) && instance == (if r.Ok? then Some(r.value) else None)
    {
      if instance.Some? {
        return Ok(instance.value);
      }
      r := FindSystemDefault(probe);
      if r.Ok? {
        instance := Some(r.value);
      }
    }
  }

  /** Once a search has succeeded, every later call returns the same class
      path, whatever the file system reports by then. */
  method SystemDefaultIsStable(first: string -> Probe, later: string -> Probe)
    returns (a: Result<Classpath, SearchError>, b: Result<Classpath, SearchError>)
    requires Search(first).Ok?
    ensures a == Search(first) && b == a
  {
    var cache := new SystemDefault();
    a := cache.Get(first);
    b := cache.Get(later);
  }

  /** A failed first search is not remembered: the next call searches again. */
  method SystemDefaultRetries(first: string -> Probe, later: string -> Probe)
    returns (a: Result<Classpath, SearchError>, b: Result<Classpath, SearchError>)
    requires Search(first).Err?
    ensures a == Search(first) && b == Search(later)
  {
    var cache := new SystemDefault();
    a := cache.Get(first);
    b := cache.Get(later);
  }
}
