/**
 * The two deployment hooks: before a deploy every Lightning component bundle's
 * script is transformed and, when a bind decorator was rewritten, overwritten and
 * recorded in the predeployed list; after the deploy every recorded original is
 * written back. The file system is a map from location to contents.
 */
module Deploy {
  import opened Wrappers
  import opened Syntax
  import opened Rewrite

  /** What one file's text becomes: `transformFile` with the parser and printer it uses. */
  type Transformer = string -> Result<FileResult, Error>

  /** The transformer the hook uses: the bind plugin between a parser and a printer. */
  function PluginTransform(parse: string -> Option<Program>, printer: Program -> string): Transformer {
    text => TransformFile(text, parse, printer)
  }

  /** The component type whose script is transformed. */
  const LightningComponentBundle: string := "LightningComponentBundle"

  /** A source component of the deployment: its type name, content directory and name. */
  datatype Component = Component(typeName: string, content: string, name: string)

  /** The location of a bundle's script, `<content>/<name>.js`. */
  function JsLocation(c: Component): string {
    c.content + "/" + c.name + ".js"
  }

  predicate IsBundle(c: Component) {
    c.typeName == LightningComponentBundle
  }

  /** No two bundles of the deployment share a script location. */
  predicate DistinctBundles(cs: seq<Component>) {
    forall i, j :: 0 <= i < j < |cs| && IsBundle(cs[i]) && IsBundle(cs[j]) ==> JsLocation(cs[i]) != JsLocation(cs[j])
  }

  /** One entry of the predeployed list. */
  datatype Predeployed = Predeployed(fileLocation: string, contentsBeforeDeployment: string)

  /** The file system together with the predeployed list. */
  datatype Disk = Disk(files: map<string, string>, predeployed: seq<Predeployed>)

  /** The state after the pre-deploy hook, and the error that stopped it, if any. */
  datatype Deployed = Deployed(disk: Disk, error: Option<Error>)

  // ---------------------------------------------------------------------------
  // The pre-deploy hook
  // ---------------------------------------------------------------------------

  /** The file at `e`'s location held `e`'s contents in `before`, and those contents transform with `seen` set into what `after` holds there. */
  predicate EntryFaithful(before: map<string, string>, after: map<string, string>, e: Predeployed,
                          transform: Transformer)
  {
    && e.fileLocation in before
    && e.contentsBeforeDeployment == before[e.fileLocation]
    && var t := transform(e.contentsBeforeDeployment);
       t.Success? && t.value.seen && e.fileLocation in after && after[e.fileLocation] == t.value.code
  }

  /**
   * The pre-deploy hook on one component. It fails exactly when the component is a
   * bundle whose script is missing or does not transform. It overwrites a file and
   * adds an entry only for a bundle's script whose transformation reported `seen`,
   * and the entry holds the contents read before transforming.
   */
  function Step(d: Disk, c: Component, transform: Transformer): (r: Result<Disk, Error>)
    ensures r.Failure? <==>
      (IsBundle(c) && (JsLocation(c) !in d.files || transform(d.files[JsLocation(c)]).Failure?))
    ensures r.Success? ==> r.value.files.Keys == d.files.Keys
    ensures r.Success? && r.value != d ==>
      && IsBundle(c)
      && JsLocation(c) in d.files
      && |r.value.predeployed| == |d.predeployed| + 1
      && r.value.predeployed[..|d.predeployed|] == d.predeployed
      && r.value.predeployed[|d.predeployed|].fileLocation == JsLocation(c)
      && EntryFaithful(d.files, r.value.files, r.value.predeployed[|d.predeployed|], transform)
      && r.value.files == d.files[JsLocation(c) := r.value.files[JsLocation(c)]]
    ensures r.Success? && IsBundle(c) && transform(d.files[JsLocation(c)]).value.seen ==> r.value != d
  {
    if !IsBundle(c) then Success(d)
    else
      var location := JsLocation(c);
      if location !in d.files then Failure(ReadError(location))
      else
        match transform(d.files[location])
        case Failure(e) => Failure(e)
        case Success(result) =>
          if result.seen then
            var d' := Disk(d.files[location := result.code], d.predeployed + [Predeployed(location, d.files[location])]);
            assert |d'.predeployed| != |d.predeployed|;
            assert d'.predeployed[..|d.predeployed|] == d.predeployed;
            Success(d')
          else Success(d)
  }

  /** The pre-deploy hook on the components in order; the first error stops it, keeping what was done before. */
  function DeployAll(d: Disk, cs: seq<Component>, transform: Transformer): (r: Deployed)
    ensures r.disk.files.Keys == d.files.Keys
    ensures |d.predeployed| <= |r.disk.predeployed| && r.disk.predeployed[..|d.predeployed|] == d.predeployed
    decreases |cs|
  {
    if cs == [] then Deployed(d, None)
    else
      match Step(d, cs[0], transform)
      case Failure(e) => Deployed(d, Some(e))
      case Success(d') => DeployAll(d', cs[1..], transform)
  }

  /** The locations of the entries of `list` from position `from` on. */
  predicate RecordedFrom(list: seq<Predeployed>, from: nat, location: string) {
    exists i :: from <= i < |list| && list[i].fileLocation == location
  }

  /** `l` is the script of some bundle of `cs`. */
  predicate BundleScript(cs: seq<Component>, l: string) {
    exists k :: 0 <= k < |cs| && IsBundle(cs[k]) && JsLocation(cs[k]) == l
  }

  /**
   * The hook keeps the existing entries and the set of files; every entry it adds
   * is the script of a bundle of the deployment, and every file whose contents
   * changed has an entry.
   */
  lemma {:induction false} DeployOnlyTouchesRecorded(d: Disk, cs: seq<Component>, transform: Transformer)
    ensures var r := DeployAll(d, cs, transform).disk;
      && r.files.Keys == d.files.Keys
      && |d.predeployed| <= |r.predeployed| && r.predeployed[..|d.predeployed|] == d.predeployed
      && (forall i :: |d.predeployed| <= i < |r.predeployed| ==> BundleScript(cs, r.predeployed[i].fileLocation))
      && (forall l :: l in d.files && r.files[l] != d.files[l] ==> RecordedFrom(r.predeployed, |d.predeployed|, l))
    decreases |cs|
  {
    if cs != [] {
      var s := Step(d, cs[0], transform);
      if s.Success? {
        var d', rest := s.value, cs[1..];
        DeployOnlyTouchesRecorded(d', rest, transform);
        assert DeployAll(d, cs, transform) == DeployAll(d', rest, transform);
        var r := DeployAll(d', rest, transform).disk;
        forall i | |d'.predeployed| <= i < |r.predeployed|
          ensures BundleScript(cs, r.predeployed[i].fileLocation)
        {
          assert BundleScript(rest, r.predeployed[i].fileLocation);
          var k :| 0 <= k < |rest| && IsBundle(rest[k]) && JsLocation(rest[k]) == r.predeployed[i].fileLocation;
          assert rest[k] == cs[k + 1];
        }
        if d' != d {
          var n := |d.predeployed|;
          assert r.predeployed[..|d'.predeployed|][..n] == r.predeployed[..n];
          assert r.predeployed[n] == d'.predeployed[n];
          assert IsBundle(cs[0]) && JsLocation(cs[0]) == r.predeployed[n].fileLocation;
          assert BundleScript(cs, r.predeployed[n].fileLocation);
          forall l | l in d.files && r.files[l] != d.files[l]
            ensures RecordedFrom(r.predeployed, n, l)
          {
            if l != JsLocation(cs[0]) {
              assert d'.files[l] == d.files[l];
              var i :| |d'.predeployed| <= i < |r.predeployed| && r.predeployed[i].fileLocation == l;
            }
          }
        }
      }
    }
  }

  /** A location that is no bundle's script keeps its contents and gets no entry. */
  lemma {:induction false} DeployUntouched(d: Disk, cs: seq<Component>, transform: Transformer, l: string)
    requires !BundleScript(cs, l)
    ensures var r := DeployAll(d, cs, transform).disk;
      && (l in r.files <==> l in d.files)
      && (l in d.files ==> r.files[l] == d.files[l])
      && !RecordedFrom(r.predeployed, |d.predeployed|, l)
  {
    DeployOnlyTouchesRecorded(d, cs, transform);
    var r := DeployAll(d, cs, transform).disk;
    forall i | |d.predeployed| <= i < |r.predeployed|
      ensures r.predeployed[i].fileLocation != l
    {
      assert BundleScript(cs, r.predeployed[i].fileLocation);
    }
  }

  /** The bundles after the first one have scripts of their own. */
  lemma DistinctRest(cs: seq<Component>)
    requires cs != [] && DistinctBundles(cs)
    ensures DistinctBundles(cs[1..])
    ensures IsBundle(cs[0]) ==> forall k :: 0 <= k < |cs[1..]| && IsBundle(cs[1..][k]) ==> JsLocation(cs[1..][k]) != JsLocation(cs[0])
  {
    var rest := cs[1..];
    assert forall k :: 0 <= k < |rest| ==> rest[k] == cs[k + 1];
  }

  /** Faithfulness of an entry depends only on its own location in the two maps. */
  lemma EntryFaithfulAt(before: map<string, string>, after: map<string, string>,
                        before': map<string, string>, after': map<string, string>, e: Predeployed,
                        transform: Transformer)
    requires EntryFaithful(before, after, e, transform)
    requires e.fileLocation in before' && before'[e.fileLocation] == before[e.fileLocation]
    requires e.fileLocation in after' && after'[e.fileLocation] == after[e.fileLocation]
    ensures EntryFaithful(before', after', e, transform)
  {
  }

  /**
   * When no two bundles share a script, each entry the hook adds holds the contents
   * the file had before the hook, those contents transform with `seen` set, and the
   * file now holds the transformed code.
   */
  lemma {:induction false} DeployRecordsOriginals(d: Disk, cs: seq<Component>, transform: Transformer)
    requires DistinctBundles(cs)
    ensures var r := DeployAll(d, cs, transform).disk;
      forall i :: |d.predeployed| <= i < |r.predeployed| ==> EntryFaithful(d.files, r.files, r.predeployed[i], transform)
    decreases |cs|
  {
    if cs != [] {
      var s := Step(d, cs[0], transform);
      if s.Success? {
        var d', rest := s.value, cs[1..];
        DistinctRest(cs);
        DeployRecordsOriginals(d', rest, transform);
        DeployOnlyTouchesRecorded(d', rest, transform);
        assert DeployAll(d, cs, transform) == DeployAll(d', rest, transform);
        var r := DeployAll(d', rest, transform).disk;
        if d' != d {
          var n := |d.predeployed|;
          var location := JsLocation(cs[0]);
          // a later entry is the script of a later bundle, which the first step did not touch
          forall i | |d'.predeployed| <= i < |r.predeployed|
            ensures EntryFaithful(d.files, r.files, r.predeployed[i], transform)
          {
            var e := r.predeployed[i];
            assert BundleScript(rest, e.fileLocation);
            var k :| 0 <= k < |rest| && IsBundle(rest[k]) && JsLocation(rest[k]) == e.fileLocation;
            assert e.fileLocation != location;
            EntryFaithfulAt(d'.files, r.files, d.files, r.files, e, transform);
          }
          // the first step's entry: no later step touches its script
          DeployUntouched(d', rest, transform, location);
          assert r.predeployed[..|d'.predeployed|][..n] == r.predeployed[..n];
          assert r.predeployed[n] == d'.predeployed[n];
          EntryFaithfulAt(d.files, d'.files, d.files, r.files, r.predeployed[n], transform);
        }
      }
    }
  }

  /**
   * When the hook ran to the end, every bundle's script existed and transformed,
   * and each one whose transformation reported `seen` has an entry.
   */
  lemma {:induction false} DeployRecordsEverySeen(d: Disk, cs: seq<Component>, transform: Transformer)
    requires DeployAll(d, cs, transform).error.None?
    ensures var r := DeployAll(d, cs, transform).disk;
      forall k :: 0 <= k < |cs| && IsBundle(cs[k]) ==>
        && JsLocation(cs[k]) in d.files
        && transform(d.files[JsLocation(cs[k])]).Success?
        && (transform(d.files[JsLocation(cs[k])]).value.seen ==>
              RecordedFrom(r.predeployed, |d.predeployed|, JsLocation(cs[k])))
    decreases |cs|
  {
    if cs != [] {
      var s := Step(d, cs[0], transform);
      var d', rest := s.value, cs[1..];
      assert DeployAll(d, cs, transform) == DeployAll(d', rest, transform);
      DeployRecordsEverySeen(d', rest, transform);
      DeployOnlyTouchesRecorded(d', rest, transform);
      var r := DeployAll(d', rest, transform).disk;
      var n := |d.predeployed|;
      forall k | 0 <= k < |cs| && IsBundle(cs[k])
        ensures && JsLocation(cs[k]) in d.files
                && transform(d.files[JsLocation(cs[k])]).Success?
                && (transform(d.files[JsLocation(cs[k])]).value.seen ==>
                      RecordedFrom(r.predeployed, n, JsLocation(cs[k])))
      {
        var location := JsLocation(cs[k]);
        if k == 0 || (IsBundle(cs[0]) && JsLocation(cs[0]) == location) {
          // the first step read this script: it transformed, and it is recorded if seen
          if transform(d.files[location]).value.seen {
            assert r.predeployed[..|d'.predeployed|][..n] == r.predeployed[..n];
            assert r.predeployed[n] == d'.predeployed[n];
          }
        } else {
          // the first step left this script alone, so the later bundle read the original
          assert rest[k - 1] == cs[k];
          if IsBundle(cs[0]) {
            assert d'.files[location] == d.files[location];
          }
          if transform(d.files[location]).value.seen {
            var i :| |d'.predeployed| <= i < |r.predeployed| && r.predeployed[i].fileLocation == location;
          }
        }
      }
    }
  }

  /**
   * A bundle whose script holds a bind decorator without exactly one argument stops
   * the hook with an arity error before anything is written or recorded for it.
   */
  lemma ArityErrorWritesNothing(d: Disk, c: Component, cs: seq<Component>, parse: string -> Option<Program>, printer: Program -> string)
    requires IsBundle(c) && JsLocation(c) in d.files
    requires parse(d.files[JsLocation(c)]).Some? && HasBadBind(parse(d.files[JsLocation(c)]).value)
    ensures DeployAll(d, [c] + cs, PluginTransform(parse, printer)) == Deployed(d, Some(ArityError))
  {
    assert ([c] + cs)[0] == c;
  }

  // ---------------------------------------------------------------------------
  // The post-deploy hook
  // ---------------------------------------------------------------------------

  /** The files after writing back every entry of `list`, in list order. */
  function Restored(files: map<string, string>, list: seq<Predeployed>): (r: map<string, string>)
    ensures r.Keys == files.Keys + set i | 0 <= i < |list| :: list[i].fileLocation
    decreases |list|
  {
    if list == [] then files
    else
      var last := list[|list| - 1];
      Restored(files, list[..|list| - 1])[last.fileLocation := last.contentsBeforeDeployment]
  }

  /** The contents of the last entry of `list` for `location`, if there is one. */
  function LastRecorded(list: seq<Predeployed>, location: string): (r: Option<string>)
    ensures r.None? <==> !RecordedFrom(list, 0, location)
    ensures r.Some? ==> exists i :: 0 <= i < |list| && list[i] == Predeployed(location, r.value) &&
                          forall j :: i < j < |list| ==> list[j].fileLocation != location
    decreases |list|
  {
    if list == [] then None
    else
      var last := list[|list| - 1];
      var init := list[..|list| - 1];
      if last.fileLocation == location then Some(last.contentsBeforeDeployment)
      else
        assert forall i :: 0 <= i < |init| ==> init[i] == list[i];
        LastRecorded(init, location)
  }

  /** After restoring, a recorded location holds its last entry's contents and any other location is as it was. */
  lemma {:induction false} RestoredAt(files: map<string, string>, list: seq<Predeployed>, location: string)
    ensures location in Restored(files, list) <==> location in files || RecordedFrom(list, 0, location)
    ensures location in Restored(files, list) ==>
      Restored(files, list)[location] == match LastRecorded(list, location) case Some(c) => c case None => files[location]
    decreases |list|
  {
    if list != [] {
      var init := list[..|list| - 1];
      assert forall i :: 0 <= i < |init| ==> init[i] == list[i];
      RestoredAt(files, init, location);
    }
  }

  /** Restoring twice leaves the files as restoring once does. */
  lemma RestoreIdempotent(files: map<string, string>, list: seq<Predeployed>)
    ensures Restored(Restored(files, list), list) == Restored(files, list)
  {
    var once := Restored(files, list);
    var twice := Restored(once, list);
    forall l | l in twice || l in once
      ensures l in twice && l in once && twice[l] == once[l]
    {
      RestoredAt(files, list, l);
      RestoredAt(once, list, l);
    }
  }

  /**
   * One deploy cycle started with an empty list, restored: when no two bundles share
   * a script, every file is back to its contents before the cycle, also when the
   * pre-deploy hook stopped on an error.
   */
  lemma DeployRestoreRoundTrip(files: map<string, string>, cs: seq<Component>, transform: Transformer)
    requires DistinctBundles(cs)
    ensures var r := DeployAll(Disk(files, []), cs, transform).disk;
      Restored(r.files, r.predeployed) == files
  {
    var d := Disk(files, []);
    var r := DeployAll(d, cs, transform).disk;
    DeployOnlyTouchesRecorded(d, cs, transform);
    DeployRecordsOriginals(d, cs, transform);
    var restored := Restored(r.files, r.predeployed);
    forall l | l in restored || l in files
      ensures l in restored && l in files && restored[l] == files[l]
    {
      RestoredAt(r.files, r.predeployed, l);
      match LastRecorded(r.predeployed, l)
      case Some(c) =>
        var i :| 0 <= i < |r.predeployed| && r.predeployed[i] == Predeployed(l, c);
        assert EntryFaithful(files, r.files, r.predeployed[i], transform);
      case None =>
    }
  }

  /** Entries after position `n` that are for other locations do not change the last entry for `location`. */
  lemma {:induction false} LastRecordedPrefix(list: seq<Predeployed>, n: nat, location: string)
    requires n <= |list|
    requires !RecordedFrom(list, n, location)
    ensures LastRecorded(list, location) == LastRecorded(list[..n], location)
    decreases |list| - n
  {
    if n < |list| {
      var init := list[..|list| - 1];
      assert list[|list| - 1].fileLocation != location;
      assert !RecordedFrom(init, n, location) by {
        assert forall i :: n <= i < |init| ==> init[i] == list[i];
      }
      LastRecordedPrefix(init, n, location);
      assert init[..n] == list[..n];
    }
  }

  /**
   * The predeployed list is never emptied: after a second cycle that records no new
   * entry for a file recorded in an earlier one (the file is left out of the deploy,
   * or its transformation no longer reports `seen`), restoring writes the earlier
   * entry's contents over whatever the file held, such as an edit made between the
   * cycles.
   */
  lemma StaleEntryRevertsEdit(files: map<string, string>, stale: seq<Predeployed>, cs: seq<Component>, transform: Transformer, location: string)
    requires RecordedFrom(stale, 0, location)
    requires !RecordedFrom(DeployAll(Disk(files, stale), cs, transform).disk.predeployed, |stale|, location)
    ensures var r := DeployAll(Disk(files, stale), cs, transform).disk;
      location in Restored(r.files, r.predeployed) &&
      Restored(r.files, r.predeployed)[location] == LastRecorded(stale, location).value
  {
    var d := Disk(files, stale);
    DeployOnlyTouchesRecorded(d, cs, transform);
    var r := DeployAll(d, cs, transform).disk;
    LastRecordedPrefix(r.predeployed, |stale|, location);
    RestoredAt(r.files, r.predeployed, location);
    var i :| 0 <= i < |stale| && stale[i].fileLocation == location;
    assert r.predeployed[i] == stale[i];
  }

  // ---------------------------------------------------------------------------
  // The hooks' state
  // ---------------------------------------------------------------------------

  /** The file system and the module-level predeployed list that both hooks share. */
  class Workspace {
    var files: map<string, string>
    var predeployed: seq<Predeployed>

    constructor (files: map<string, string>)
      ensures this.files == files && predeployed == []
    {
      this.files := files;
      predeployed := [];
    }

    function State(): Disk
      reads this
    {
      Disk(files, predeployed)
    }

    /** `logPredeployData`: transform every bundle's script, overwrite and record those that a bind decorator was rewritten in. */
    method LogPredeployData(components: seq<Component>, parse: string -> Option<Program>, printer: Program -> string)
      returns (error: Option<Error>)
      modifies this
      ensures DeployAll(old(State()), components, PluginTransform(parse, printer)) == Deployed(State(), error)
    {
      var transform := PluginTransform(parse, printer);
      error := None;
      var i := 0;
      while i < |components|
        invariant 0 <= i <= |components|
        invariant DeployAll(State(), components[i..], transform) == DeployAll(old(State()), components, transform)
      {
        var component := components[i];
        assert components[i..][1..] == components[i + 1..];
        if component.typeName == LightningComponentBundle {
          var jsLocation := JsLocation(component);
          if jsLocation !in files {
            error := Some(ReadError(jsLocation));
            return;
          }
          var fileContents := files[jsLocation];
          var transformedFile := TransformFile(fileContents, parse, printer);
          if transformedFile.Failure? {
            error := Some(transformedFile.error);
            return;
          }
          if transformedFile.value.seen {
            files := files[jsLocation := transformedFile.value.code];
            predeployed := predeployed + [Predeployed(jsLocation, fileContents)];
          }
        }
        i := i + 1;
      }
    }

    /** `restore`: write every recorded original back, in list order; the list is kept. */
    method Restore()
      modifies this
      ensures files == Restored(old(files), predeployed)
      ensures predeployed == old(predeployed)
    {
      for i := 0 to |predeployed|
        invariant predeployed == old(predeployed)
        invariant files == Restored(old(files), predeployed[..i])
      {
        assert predeployed[..i + 1][..i] == predeployed[..i];
        files := files[predeployed[i].fileLocation := predeployed[i].contentsBeforeDeployment];
      }
      assert predeployed[..|predeployed|] == predeployed;
    }

    /** The restore step with the list emptied afterwards, so that no entry outlives its cycle. */
    method RestoreAndClear()
      modifies this
      ensures files == Restored(old(files), old(predeployed))
      ensures predeployed == []
    {
      Restore();
      predeployed := [];
    }
  }
}
