/** The script registry: from the listing of every `monorepo_script.toml` marker file in the
    repository to the list of scripts, and from a target name to the script that serves it. */
module Discovery {
  import opened Outcomes
  import opened Text

  /** `os.path.sep` on the platforms the plug-in targets. */
  const Separator: char := '/'

  /** A script: the name of the directory holding its marker file, and that directory's path. */
  datatype Script = Script(name: string, path: string)

  /** A listed line that strips to nothing is not a marker. */
  predicate IsBlank(line: string)
  {
    Strip(line) == ""
  }

  predicate NotBlank(line: string)
  {
    !IsBlank(line)
  }

  /** The marker paths in the listing: its lines, blank ones dropped, in listing order. */
  function Markers(stdout: string): seq<string>
  {
    Filter(Split(stdout, '\n'), NotBlank)
  }

  /** The markers are exactly the lines of the listing that hold a non-whitespace character. */
  lemma MarkersAreNonBlankLines(stdout: string, m: string)
    ensures m in Markers(stdout) <==>
      m in Split(stdout, '\n') && exists j :: 0 <= j < |m| && !IsSpace(m[j])
  {
    StripEmptyIffBlank(m);
    var lines := Split(stdout, '\n');
    if m in lines && NotBlank(m) {
      var i :| 0 <= i < |lines| && lines[i] == m;
      assert lines[i] in Markers(stdout);
    }
    if m in Markers(stdout) {
      var i :| 0 <= i < |Markers(stdout)| && Markers(stdout)[i] == m;
      assert Markers(stdout)[i] in lines;
    }
  }

  /** A marker below the repository root, that is one whose path has a parent directory. */
  predicate IsScript(marker: string)
  {
    |Split(marker, Separator)| > 1
  }

  /** The script of a marker: its parent directory's name, and the root joined with every
      segment but the last. */
  function MakeScript(root: string, marker: string): Script
    requires IsScript(marker)
  {
    var entries := Split(marker, Separator);
    Script(entries[|entries| - 2], root + [Separator] + Join(entries[..|entries| - 1], Separator))
  }

  /** A marker names a script exactly when its path contains a separator. */
  lemma IsScriptIffNested(marker: string)
    ensures IsScript(marker) <==> Separator in marker
  {
    SplitsIffContains(marker, Separator);
  }

  /** A marker path decomposes as `pre + name + "/" + file` with `name` and `file` single
      segments; the script is named `name` and lives at `root + "/" + pre + name`. */
  lemma {:induction false} MakeScriptDecomposes(root: string, marker: string)
    returns (pre: string, file: string)
    requires IsScript(marker)
    ensures var s := MakeScript(root, marker);
      && marker == pre + s.name + [Separator] + file
      && s.path == root + [Separator] + pre + s.name
      && Separator !in s.name && Separator !in file
      && (pre == "" || pre[|pre| - 1] == Separator)
  {
    var entries := Split(marker, Separator);
    var n := |entries|;
    var name := entries[n - 2];
    file := entries[n - 1];
    var dir := entries[..n - 1];
    SplitJoin(marker, Separator);
    assert entries == dir + [file];
    JoinSnoc(dir, file, Separator);
    if n == 2 {
      pre := "";
      assert dir == [name];
    } else {
      pre := Join(entries[..n - 2], Separator) + [Separator];
      assert dir == entries[..n - 2] + [name];
      JoinSnoc(entries[..n - 2], name, Separator);
    }
  }

  /** The scripts of the markers that have a parent directory, in marker order. */
  function ScriptsOf(root: string, markers: seq<string>): (scripts: seq<Script>)
    ensures |scripts| <= |markers|
  {
    if |markers| == 0 then []
    else (if IsScript(markers[0]) then [MakeScript(root, markers[0])] else []) + ScriptsOf(root, markers[1..])
  }

  /** One marker yields at most one script: its own, when it is nested, and none otherwise. */
  lemma ScriptsOfOne(root: string, m: string)
    ensures ScriptsOf(root, [m]) == if IsScript(m) then [MakeScript(root, m)] else []
    ensures |ScriptsOf(root, [m])| <= 1
  {
    assert [m][1..] == [];
  }

  /** Discovery keeps the listing order: scripts of earlier markers come first. */
  lemma {:induction false} ScriptsOfConcat(root: string, a: seq<string>, b: seq<string>)
    ensures ScriptsOf(root, a + b) == ScriptsOf(root, a) + ScriptsOf(root, b)
  {
    if |a| == 0 {
      assert a + b == b;
    } else {
      var head := if IsScript(a[0]) then [MakeScript(root, a[0])] else [];
      assert (a + b)[0] == a[0];
      assert (a + b)[1..] == a[1..] + b;
      assert ScriptsOf(root, a + b) == head + ScriptsOf(root, a[1..] + b);
      ScriptsOfConcat(root, a[1..], b);
      assert ScriptsOf(root, a) == head + ScriptsOf(root, a[1..]);
    }
  }

  /** Every discovered script comes from a marker with a parent directory. */
  lemma {:induction false} ScriptsOfSound(root: string, markers: seq<string>, k: nat) returns (i: nat)
    requires k < |ScriptsOf(root, markers)|
    ensures i < |markers| && IsScript(markers[i])
    ensures ScriptsOf(root, markers)[k] == MakeScript(root, markers[i])
  {
    var rest := ScriptsOf(root, markers[1..]);
    if IsScript(markers[0]) && k == 0 {
      i := 0;
    } else {
      var k' := if IsScript(markers[0]) then k - 1 else k;
      assert ScriptsOf(root, markers)[k] == rest[k'];
      var i' := ScriptsOfSound(root, markers[1..], k');
      i := i' + 1;
      assert markers[1..][i'] == markers[i];
    }
  }

  /** Every marker with a parent directory yields its script. */
  lemma ScriptsOfComplete(root: string, markers: seq<string>, i: nat)
    requires i < |markers| && IsScript(markers[i])
    ensures MakeScript(root, markers[i]) in ScriptsOf(root, markers)
  {
    assert markers == markers[..i] + ([markers[i]] + markers[i + 1..]);
    ScriptsOfConcat(root, markers[..i], [markers[i]] + markers[i + 1..]);
    assert ([markers[i]] + markers[i + 1..])[1..] == markers[i + 1..];
  }

  /** Every script discovered from the listing `stdout` of a repository rooted at `root`. */
  function Discover(root: string, stdout: string): seq<Script>
  {
    ScriptsOf(root, Markers(stdout))
  }

  /** Index of the first script called `target`. */
  function FirstNamed(scripts: seq<Script>, target: string): (r: Option<nat>)
    ensures r.None? <==> forall i :: 0 <= i < |scripts| ==> scripts[i].name != target
    ensures r.Some? ==> r.value < |scripts| && scripts[r.value].name == target
    ensures r.Some? ==> forall j :: 0 <= j < r.value ==> scripts[j].name != target
  {
    if |scripts| == 0 then None
    else if scripts[0].name == target then Some(0)
    else match FirstNamed(scripts[1..], target)
      case None => None
      case Some(i) => Some(i + 1)
  }

  /** The script `target` resolves to: the first discovered script of that name. */
  function Resolve(scripts: seq<Script>, target: string): (r: Option<Script>)
    ensures r.None? <==> forall i :: 0 <= i < |scripts| ==> scripts[i].name != target
    ensures r.Some? ==> r.value.name == target && r.value in scripts
  {
    match FirstNamed(scripts, target)
    case None => None
    case Some(i) => Some(scripts[i])
  }

  /** A script of another name in front does not change what a target resolves to. */
  lemma ResolveSkips(s: Script, rest: seq<Script>, target: string)
    requires s.name != target
    ensures Resolve([s] + rest, target) == Resolve(rest, target)
  {
    assert ([s] + rest)[1..] == rest;
  }

  /** Resolution picks the script of the first listed marker whose parent directory is
      called `target`. */
  lemma {:induction false} ResolvePicksFirstMarker(root: string, markers: seq<string>, target: string)
    returns (k: nat)
    requires Resolve(ScriptsOf(root, markers), target).Some?
    ensures k < |markers| && IsScript(markers[k])
    ensures Resolve(ScriptsOf(root, markers), target) == Some(MakeScript(root, markers[k]))
    ensures MakeScript(root, markers[k]).name == target
    ensures forall j :: 0 <= j < k && IsScript(markers[j]) ==> MakeScript(root, markers[j]).name != target
  {
    assert |markers| > 0;
    var head := if IsScript(markers[0]) then [MakeScript(root, markers[0])] else [];
    var rest := ScriptsOf(root, markers[1..]);
    assert ScriptsOf(root, markers) == head + rest;
    if IsScript(markers[0]) && MakeScript(root, markers[0]).name == target {
      k := 0;
      assert (head + rest)[0] == MakeScript(root, markers[0]);
    } else {
      if IsScript(markers[0]) {
        ResolveSkips(MakeScript(root, markers[0]), rest, target);
      } else {
        assert head + rest == rest;
      }
      var k' := ResolvePicksFirstMarker(root, markers[1..], target);
      k := k' + 1;
      assert markers[1..][k'] == markers[k];
      forall j | 0 <= j < k && IsScript(markers[j]) ensures MakeScript(root, markers[j]).name != target {
        if j > 0 {
          assert markers[1..][j - 1] == markers[j];
        }
      }
    }
  }

  /** The script of a marker, given the marker's segments. */
  lemma MakeScriptOfSplit(root: string, marker: string, entries: seq<string>)
    requires Split(marker, Separator) == entries && |entries| >= 2
    ensures IsScript(marker)
    ensures MakeScript(root, marker)
      == Script(entries[|entries| - 2], root + [Separator] + Join(entries[..|entries| - 1], Separator))
  {
  }

  /** The marker `s1/.../sn-1/file` names the script `sn-1` at `root/s1/.../sn-1`:
      the same rule phrased on the segments a marker path is made of. */
  lemma MakeScriptOfSegments(root: string, segments: seq<string>)
    requires |segments| >= 2
    requires forall i :: 0 <= i < |segments| ==> Separator !in segments[i]
    ensures IsScript(Join(segments, Separator))
    ensures MakeScript(root, Join(segments, Separator))
      == Script(segments[|segments| - 2], root + [Separator] + Join(segments[..|segments| - 1], Separator))
  {
    JoinSplit(segments, Separator);
    MakeScriptOfSplit(root, Join(segments, Separator), segments);
  }
}
