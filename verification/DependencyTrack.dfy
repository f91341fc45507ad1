/**
 The Dependency Track post-processor: rendering the write information, getting or creating the parent
 chain, uploading, and waiting for the upload to be processed. Template execution, gzip and base64 are
 function arguments.
 */
module DependencyTrack {
  import opened Faults
  import opened Options
  import opened ProjectForest
  import opened Strings
  import Handshake

  type Bytes = seq<bv8>

  /** A bill of materials for `project`, to be created if need be, under an existing parent. */
  datatype Upload = Upload(project: string, parent: nat, version: string, tags: seq<string>, bom: string)

  class Tracker {
    var projects: Forest
    /** The uploads received, in order. */
    var uploads: seq<Upload>
    /** How the next server calls will go; when it runs out they succeed. */
    var faults: seq<Fault>

    constructor (projects: Forest, faults: seq<Fault>)
      ensures this.projects == projects && this.uploads == [] && this.faults == faults
    {
      this.projects, this.uploads, this.faults := projects, [], faults;
    }

    method GetProjectsForName(name: string) returns (ids: seq<nat>, ok: bool)
      modifies `faults
      ensures ok == Head(old(faults)).NoFault? && faults == Tail(old(faults))
      ensures ids == Matches(projects, name)
    {
      ok := Head(faults).NoFault?;
      faults := Tail(faults);
      ids := Matches(projects, name);
    }

    method Get(id: nat) returns (project: Project, ok: bool)
      requires id < |projects|
      modifies `faults
      ensures ok == Head(old(faults)).NoFault? && faults == Tail(old(faults)) && project == projects[id]
    {
      ok := Head(faults).NoFault?;
      faults := Tail(faults);
      project := projects[id];
    }

    method UploadBOM(request: Upload) returns (ok: bool)
      modifies `uploads, `faults
      ensures uploads == if Head(old(faults)).Refused? then old(uploads) else old(uploads) + [request]
      ensures ok == Head(old(faults)).NoFault? && faults == Tail(old(faults))
    {
      var fault := Head(faults);
      faults := Tail(faults);
      if fault != Refused {
        uploads := uploads + [request];
      }
      ok := fault.NoFault?;
    }

    method CreateProject(project: Project) returns (id: Option<nat>)
      modifies `projects, `faults
      ensures Got(projects, id, faults) == Create(old(projects), project, old(faults))
    {
      var fault := Head(faults);
      faults := Tail(faults);
      id := None;
      if fault != Refused {
        if fault == NoFault {
          id := Some(|projects|);
        }
        projects := projects + [project];
      }
    }

    method GetOrCreateProject(name: string, parent: Option<nat>, leaf: bool) returns (project: Option<nat>)
      modifies `projects, `faults
      ensures Got(projects, project, faults) == GetOrCreate(old(projects), name, parent, leaf, old(faults))
    {
      var ids, ok := GetProjectsForName(name);
      if !ok {
        return None;
      }
      MatchesAreIds(projects, name);
      if |ids| == 0 {
        project := CreateProject(Project(name, parent, true, !leaf));
      } else if parent.Some? {
        var i := 0;
        while i < |ids|
          invariant 0 <= i <= |ids| && projects == old(projects)
          invariant Search(projects, ids[i..], parent.value, faults) ==
                    Search(projects, ids, parent.value, Tail(old(faults)))
        {
          assert ids[i..][1..] == ids[i + 1..];
          var full, got := Get(ids[i]);
          if !got {
            return None;
          }
          if full.parent == Some(parent.value) {
            return Some(ids[i]);
          }
          i := i + 1;
        }
        return None;
      } else {
        project := Some(ids[0]);
      }
    }

    /** The parent loop of `postProcess`: each project found or created becomes the next one's parent. */
    method ParentChain(names: seq<string>) returns (path: seq<nat>, failed: bool)
      modifies `projects, `faults
      ensures Attempt(projects, path, failed, faults) == Chain(old(projects), names, None, old(faults))
    {
      path, failed := [], false;
      var project: Option<nat> := None;
      var i := 0;
      assert names[0..] == names;
      while i < |names|
        invariant 0 <= i <= |names|
        invariant Prefixed(path, Chain(projects, names[i..], project, faults)) ==
                    Chain(old(projects), names, None, old(faults))
      {
        ChainUnfolds(projects, names, i, project, faults, path);
        var got := GetOrCreateProject(names[i], project, false);
        if got.None? {
          failed := true;
          return;
        }
        path := path + [got.value];
        project := got;
        i := i + 1;
      }
    }
  }

  function Prefixed(path: seq<nat>, a: Attempt): Attempt {
    a.(path := path + a.path)
  }

  lemma ChainUnfolds(f: Forest, names: seq<string>, i: nat, project: Option<nat>, faults: seq<Fault>, path: seq<nat>)
    requires i < |names|
    ensures var got := GetOrCreate(f, names[i], project, false, faults);
            Prefixed(path, Chain(f, names[i..], project, faults)) ==
            match got.project
            case None => Attempt(got.forest, path, true, got.faults)
            case Some(id) => Prefixed(path + [id], Chain(got.forest, names[i + 1..], Some(id), got.faults))
  {
    assert names[i..][1..] == names[i + 1..];
    var got := GetOrCreate(f, names[i], project, false, faults);
    assert path + [] == path;
    if got.project.Some? {
      var rest := Chain(got.forest, names[i + 1..], got.project, got.faults);
      assert path + ([got.project.value] + rest.path) == path + [got.project.value] + rest.path;
    }
  }

  // ---- Rendering ----------------------------------------------------------------------------

  datatype Templates = Templates(parents: seq<string>, project: string, version: string)

  function NewTemplates(root: string, parent: string, project: string, version: string): Templates {
    Templates(if parent == "" then [] else if root == "" then [parent] else [root, parent], project, version)
  }

  datatype Values = Values(serviceName: string, environmentType: string, projectName: string, environmentName: string,
                           version: string)

  /** `processTemplate`: None is a parse or execution error. */
  type Renderer = (string, Values) -> Option<string>

  datatype WriteInfo = WriteInfo(parents: seq<string>, project: string, version: string)

  /** The message fields in use; `payloads` are the binary payloads in the order the map is visited. */
  datatype Message = Message(project: string, environment: string, labels: StringMap, payloads: seq<Bytes>)

  function Fallback(field: string, labels: StringMap, key: string): Option<string> {
    if field != "" then Some(field) else if key in labels then Some(labels[key]) else None
  }

  function ValuesOf(m: Message): Option<Values> {
    var project := Fallback(m.project, m.labels, "lagoon.sh/project");
    var environment := Fallback(m.environment, m.labels, "lagoon.sh/environment");
    if project.None? || environment.None? || "lagoon.sh/service" !in m.labels then None
    else
      var kind := if "lagoon.sh/environmentType" in m.labels then m.labels["lagoon.sh/environmentType"] else "unknown";
      Some(Values(m.labels["lagoon.sh/service"], kind, project.value, environment.value, ""))
  }

  function RenderAll(templates: seq<string>, values: Values, render: Renderer): Option<seq<string>> {
    if templates == [] then Some([])
    else
      var rest := RenderAll(templates[..|templates| - 1], values, render);
      var last := render(templates[|templates| - 1], values);
      if rest.None? || last.None? then None else Some(rest.value + [last.value])
  }

  function WriteInfoOf(m: Message, t: Templates, render: Renderer): Option<WriteInfo> {
    var values := ValuesOf(m);
    if values.None? then None
    else
      var parents := RenderAll(t.parents, values.value, render);
      var project := render(t.project, values.value);
      var version := render(t.version, values.value);
      if parents.None? || project.None? || version.None? then None
      else Some(WriteInfo(parents.value, project.value, version.value))
  }

  /**
   What is to be rendered, and from what: the message's own project and environment come before its
   labels, the service is its label, the environment type its label or "unknown"; every template is
   rendered with these values, and one that fails, or a missing value, is an error.
   */
  ghost predicate IsWriteInfo(m: Message, t: Templates, render: Renderer, info: Option<WriteInfo>) {
    if (m.project == "" && "lagoon.sh/project" !in m.labels)
       || (m.environment == "" && "lagoon.sh/environment" !in m.labels)
       || "lagoon.sh/service" !in m.labels
    then info == None
    else
      var v := Values(
        m.labels["lagoon.sh/service"],
        if "lagoon.sh/environmentType" in m.labels then m.labels["lagoon.sh/environmentType"] else "unknown",
        if m.project != "" then m.project else m.labels["lagoon.sh/project"],
        if m.environment != "" then m.environment else m.labels["lagoon.sh/environment"],
        "");
      && (info.None? <==>
           render(t.project, v).None? || render(t.version, v).None? ||
           exists i | 0 <= i < |t.parents| :: render(t.parents[i], v).None?)
      && (info.Some? ==>
            && render(t.project, v) == Some(info.value.project) && render(t.version, v) == Some(info.value.version)
            && |info.value.parents| == |t.parents|
            && forall i | 0 <= i < |t.parents| :: render(t.parents[i], v) == Some(info.value.parents[i]))
  }

  lemma WriteInfoMeaning(m: Message, t: Templates, render: Renderer)
    ensures IsWriteInfo(m, t, render, WriteInfoOf(m, t, render))
  {
    var values := ValuesOf(m);
    if values.Some? {
      RenderMeaning(t.parents, values.value, render);
    }
  }

  lemma {:induction false} RenderMeaning(templates: seq<string>, values: Values, render: Renderer)
    ensures var all := RenderAll(templates, values, render);
            && (all.None? <==> exists i | 0 <= i < |templates| :: render(templates[i], values).None?)
            && (all.Some? ==>
                  |all.value| == |templates|
                  && forall i | 0 <= i < |templates| :: render(templates[i], values) == Some(all.value[i]))
  {
    if templates != [] {
      var k := |templates| - 1;
      RenderMeaning(templates[..k], values, render);
      assert forall i | 0 <= i < k :: templates[..k][i] == templates[i];
    }
  }

  /** The templates from the four flags: the root comes first, and needs a parent template beside it. */
  lemma TemplatesMeaning(root: string, parent: string, project: string, version: string)
    ensures var t := NewTemplates(root, parent, project, version);
            && t.project == project && t.version == version
            && (parent == "" ==> t.parents == [])
            && (parent != "" && root == "" ==> t.parents == [parent])
            && (parent != "" && root != "" ==> |t.parents| == 2 && t.parents[0] == root && t.parents[1] == parent)
  {
  }

  method GetWriteInfo(m: Message, t: Templates, render: Renderer) returns (info: Option<WriteInfo>)
    ensures info == WriteInfoOf(m, t, render) && IsWriteInfo(m, t, render, info)
  {
    WriteInfoMeaning(m, t, render);
    var projectName, environmentName := m.project, m.environment;
    if projectName == "" {
      if "lagoon.sh/project" !in m.labels {
        return None;
      }
      projectName := m.labels["lagoon.sh/project"];
    }
    if environmentName == "" {
      if "lagoon.sh/environment" !in m.labels {
        return None;
      }
      environmentName := m.labels["lagoon.sh/environment"];
    }
    if "lagoon.sh/service" !in m.labels {
      return None;
    }
    var kind := "unknown";
    if "lagoon.sh/environmentType" in m.labels {
      kind := m.labels["lagoon.sh/environmentType"];
    }
    var values := Values(m.labels["lagoon.sh/service"], kind, projectName, environmentName, "");
    assert ValuesOf(m) == Some(values);

    var parents: seq<string> := [];
    var i := 0;
    while i < |t.parents|
      invariant 0 <= i <= |t.parents| && RenderAll(t.parents[..i], values, render) == Some(parents)
    {
      assert t.parents[..i + 1][..i] == t.parents[..i];
      var n := render(t.parents[i], values);
      if n.None? {
        RenderStops(t.parents, i + 1, values, render);
        return None;
      }
      parents := parents + [n.value];
      i := i + 1;
    }
    assert t.parents[..i] == t.parents;

    var project, version := render(t.project, values), render(t.version, values);
    if project.None? || version.None? {
      return None;
    }
    info := Some(WriteInfo(parents, project.value, version.value));
  }

  lemma {:induction false} RenderStops(templates: seq<string>, i: nat, values: Values, render: Renderer)
    requires i <= |templates| && RenderAll(templates[..i], values, render).None?
    ensures RenderAll(templates, values, render).None?
    decreases |templates| - i
  {
    if i < |templates| {
      assert templates[..i + 1][..i] == templates[..i];
      RenderStops(templates, i + 1, values, render);
    } else {
      assert templates[..i] == templates;
    }
  }

  lemma {:induction false} OneNamePerTemplate(templates: seq<string>, values: Values, render: Renderer)
    requires RenderAll(templates, values, render).Some?
    ensures |RenderAll(templates, values, render).value| == |templates|
  {
    if templates != [] {
      OneNamePerTemplate(templates[..|templates| - 1], values, render);
    }
  }

  // ---- The whole post-processor -------------------------------------------------------------

  /** `Panicked` is the nil project that an empty parent chain leaves for the upload request. */
  datatype Outcome = Sent | Skipped | Failed | Panicked

  const ENVIRONMENT_TYPE := "lagoon.sh/environmentType"

  predicate Skips(m: Message, pushProdOnly: bool) {
    pushProdOnly && (if ENVIRONMENT_TYPE in m.labels then m.labels[ENVIRONMENT_TYPE] else "") != "production"
  }

  function Tags(m: Message): seq<string> {
    if ENVIRONMENT_TYPE in m.labels then ["lagoon-environmenttype-" + m.labels[ENVIRONMENT_TYPE]] else []
  }

  /** gzip and base64. */
  datatype Codec = Codec(unzip: Bytes -> Option<Bytes>, encode: Bytes -> string)

  function Unzipped(m: Message, codec: Codec): Option<Bytes> {
    codec.unzip(if m.payloads == [] then [] else m.payloads[0])
  }

  /** Below these parents, an upload is made: there is a last one and the payload unzips. */
  predicate Uploads(m: Message, codec: Codec, path: seq<nat>) {
    path != [] && Unzipped(m, codec).Some?
  }

  function Request(m: Message, info: WriteInfo, codec: Codec, path: seq<nat>): Upload
    requires Uploads(m, codec, path)
  {
    Upload(info.project, path[|path| - 1], info.version, Tags(m), codec.encode(Unzipped(m, codec).value))
  }

  /** The server's uploads after this one: a refused one does not arrive. */
  function Received(uploads: seq<Upload>, m: Message, info: WriteInfo, codec: Codec, path: seq<nat>,
                    fault: Fault): seq<Upload> {
    if Uploads(m, codec, path) && !fault.Refused? then uploads + [Request(m, info, codec, path)] else uploads
  }

  /**
   The second half of `postProcess`; `waiting` is the run of the polling goroutine and its caller after
   the upload, up to where the caller has its result.
   */
  method SendPayload(m: Message, info: WriteInfo, codec: Codec, tracker: Tracker, path: seq<nat>,
                     waiting: seq<Handshake.Action>)
    returns (outcome: Outcome)
    requires Handshake.Run(waiting).returned.Some?
    modifies tracker`uploads, tracker`faults
    ensures tracker.uploads == Received(old(tracker.uploads), m, info, codec, path, Head(old(tracker.faults)))
    ensures outcome == Panicked <==> path == [] && Unzipped(m, codec).Some?
    ensures outcome == Sent <==> Uploads(m, codec, path) && Head(old(tracker.faults)).NoFault?
                                 && Handshake.Run(waiting).lastPoll == Some(Handshake.Finished)
    ensures outcome != Skipped
    ensures tracker.uploads != old(tracker.uploads) <==>
              path != [] && !Head(old(tracker.faults)).Refused?
              && codec.unzip(if m.payloads == [] then [] else m.payloads[0]).Some?
    ensures tracker.uploads != old(tracker.uploads) ==>
              && |tracker.uploads| == |old(tracker.uploads)| + 1 && old(tracker.uploads) <= tracker.uploads
              && var upload := tracker.uploads[|tracker.uploads| - 1];
                 && upload.project == info.project && upload.version == info.version
                 && upload.parent == path[|path| - 1]
                 && upload.tags == (if "lagoon.sh/environmentType" in m.labels
                                    then ["lagoon-environmenttype-" + m.labels["lagoon.sh/environmentType"]] else [])
                 && upload.bom == codec.encode(codec.unzip(if m.payloads == [] then [] else m.payloads[0]).value)
  {
    var tags: seq<string> := [];
    if ENVIRONMENT_TYPE in m.labels {
      tags := ["lagoon-environmenttype-" + m.labels[ENVIRONMENT_TYPE]];
    }
    var payload: Bytes := [];
    if m.payloads != [] {
      payload := m.payloads[0];
    }
    var unzipped := codec.unzip(payload);
    if unzipped.None? {
      return Failed;
    }
    if path == [] {
      return Panicked;
    }
    var ok := tracker.UploadBOM(Upload(info.project, path[|path| - 1], info.version, tags,
                                       codec.encode(unzipped.value)));
    if !ok {
      return Failed;
    }
    Handshake.HandoverIsSound(waiting);
    outcome := if Handshake.Run(waiting).returned.value then Sent else Failed;
  }

  /** `postProcess` as a whole. */
  method PostProcess(m: Message, pushProdOnly: bool, t: Templates, render: Renderer, codec: Codec, tracker: Tracker,
                     waiting: seq<Handshake.Action>)
    returns (outcome: Outcome)
    requires Handshake.Run(waiting).returned.Some?
    modifies tracker
    ensures outcome == Skipped <==>
              WriteInfoOf(m, t, render).Some? && pushProdOnly
              && !("lagoon.sh/environmentType" in m.labels && m.labels["lagoon.sh/environmentType"] == "production")
    ensures pushProdOnly && (tracker.projects != old(tracker.projects) || tracker.uploads != old(tracker.uploads)) ==>
              "lagoon.sh/environmentType" in m.labels && m.labels["lagoon.sh/environmentType"] == "production"
    ensures var info := WriteInfoOf(m, t, render);
            if info.None? || Skips(m, pushProdOnly) then
              && outcome == (if info.None? then Failed else Skipped)
              && tracker.projects == old(tracker.projects) && tracker.uploads == old(tracker.uploads)
            else
              var chain := Chain(old(tracker.projects), info.value.parents, None, old(tracker.faults));
              && tracker.projects == chain.forest
              && (chain.failed ==> outcome == Failed && tracker.uploads == old(tracker.uploads))
              && (!chain.failed ==>
                    && tracker.uploads == Received(old(tracker.uploads), m, info.value, codec, chain.path,
                                                   Head(chain.faults))
                    && (outcome == Panicked <==> info.value.parents == [] && Unzipped(m, codec).Some?)
                    && (outcome == Sent <==> Uploads(m, codec, chain.path) && Head(chain.faults).NoFault?
                                             && Handshake.Run(waiting).lastPoll == Some(Handshake.Finished))
                    && outcome != Skipped)
  {
    var info := GetWriteInfo(m, t, render);
    if info.None? {
      return Failed;
    }
    if pushProdOnly && (ENVIRONMENT_TYPE !in m.labels || m.labels[ENVIRONMENT_TYPE] != "production") {
      return Skipped;
    }
    ChainVisitsAll(tracker.projects, info.value.parents, None, tracker.faults);
    var path, failed := tracker.ParentChain(info.value.parents);
    if failed {
      return Failed;
    }
    outcome := SendPayload(m, info.value, codec, tracker, path, waiting);
  }

  /** The upload hangs under the project with the last rendered parent name, itself under the one before. */
  lemma UploadHangsUnderLastParent(f: Forest, m: Message, info: WriteInfo, codec: Codec, faults: seq<Fault>)
    requires Good(f)
    requires var chain := Chain(f, info.parents, None, faults);
             !chain.failed && Uploads(m, codec, chain.path)
    ensures var chain := Chain(f, info.parents, None, faults);
            var parent := Request(m, info, codec, chain.path).parent;
            && info.parents != [] && parent < |chain.forest|
            && Named(chain.forest[parent], info.parents[|info.parents| - 1])
            && (|chain.path| > 1 ==> chain.forest[parent].parent == Some(chain.path[|chain.path| - 2]))
  {
    var chain := Chain(f, info.parents, None, faults);
    ChainKeepsForest(f, info.parents, None, faults);
    LastOfPath(chain.forest, info.parents, chain.path);
  }

  lemma {:induction false} ChainVisitsAll(f: Forest, names: seq<string>, project: Option<nat>, faults: seq<Fault>)
    ensures !Chain(f, names, project, faults).failed ==> |Chain(f, names, project, faults).path| == |names|
    ensures names == [] ==> !Chain(f, names, project, faults).failed
    decreases |names|
  {
    if names != [] {
      var got := GetOrCreate(f, names[0], project, false, faults);
      if got.project.Some? {
        ChainVisitsAll(got.forest, names[1..], got.project, got.faults);
      }
    }
  }

  /** With templates built from flags, the chain is empty exactly when the parent template is. */
  lemma EmptyChainIffNoParentTemplate(m: Message, root: string, parent: string, project: string, version: string,
                                      render: Renderer)
    requires WriteInfoOf(m, NewTemplates(root, parent, project, version), render).Some?
    ensures WriteInfoOf(m, NewTemplates(root, parent, project, version), render).value.parents == [] <==> parent == ""
  {
    OneNamePerTemplate(NewTemplates(root, parent, project, version).parents, ValuesOf(m).value, render);
  }
}
