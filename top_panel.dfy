/**
 * The validation helpers of the pipeline studio's top panel controller: importing a pipeline file
 * (the extension check, linear connections for a config without any, artifact matching and the
 * message naming the invalid artifact fields), the source/sink classification that starts a preview,
 * and the pipeline-name error flag.
 *
 * The controller is an object whose fields these handlers update; alerts shown to the user are
 * recorded in the order they are shown.
 */
module TopPanel {
  import opened Wrappers

  datatype Stage = Stage(name: string, pluginType: string)
  datatype Connection = Connection(from: string, to: string)
  datatype Artifact = Artifact(name: string, version: string, scope: string)

  /** An imported pipeline: its artifact, its stages, and its connections when the file has them. */
  datatype ImportedPipeline = ImportedPipeline(artifact: Artifact, stages: seq<Stage>, connections: Option<seq<Connection>>)

  /** What isValidArtifact reports. */
  datatype ArtifactValidity = ArtifactValidity(name: bool, version: bool, scope: bool)

  datatype ConsoleMessage = ConsoleMessage(messageType: string)

  /** The danger alerts the handlers show. */
  datatype Alert =
    | NotJson                         // 'Pipeline configuration should be JSON.'
    | InvalidArtifact(content: string)
    | NoSourceSink                    // the studio's PREVIEW['NO-SOURCE-SINK'] text

  /** The start and end stages of a preview. */
  datatype PreviewConfig = PreviewConfig(startStages: seq<string>, endStages: seq<string>)

  const SOURCE: string := "source"
  const SINK: string := "sink"
  const NAME_ERROR_TYPES: seq<string> := ["MISSING-NAME", "INVALID-NAME"]

  /** Array.prototype.filter */
  function Filter<T(!new)>(s: seq<T>, p: T -> bool): (r: seq<T>)
    ensures forall x :: x in r <==> x in s && p(x)
    ensures |r| <= |s|
  {
    if s == [] then []
    else (if p(s[0]) then [s[0]] else []) + Filter(s[1..], p)
  }

  /** String.prototype.toUpperCase on ASCII letters. */
  function ToUpper(s: string): (r: string)
    ensures |r| == |s|
  {
    seq(|s|, i requires 0 <= i < |s| => if 'a' <= s[i] <= 'z' then (s[i] as int - 32) as char else s[i])
  }

  function ToLower(s: string): (r: string)
    ensures |r| == |s|
  {
    seq(|s|, i requires 0 <= i < |s| => if 'A' <= s[i] <= 'Z' then (s[i] as int + 32) as char else s[i])
  }

  /** Scopes that differ only in letter case compare equal. */
  lemma ScopeComparisonIgnoresCase(s: string)
    ensures ToUpper(ToLower(s)) == ToUpper(s)
    ensures ToUpper(ToUpper(s)) == ToUpper(s)
  {
  }

  /**
   * isValidArtifact: the artifacts with the imported artifact's name; among those, the ones with its
   * version and the ones with its scope, letter case aside.
   */
  function IsValidArtifact(artifacts: seq<Artifact>, imported: Artifact): ArtifactValidity
  {
    var isNameExists := Filter(artifacts, (a: Artifact) => a.name == imported.name);
    var isVersionExists := Filter(isNameExists, (a: Artifact) => a.version == imported.version);
    var isScopeExists := Filter(isNameExists, (a: Artifact) => ToUpper(a.scope) == ToUpper(imported.scope));
    ArtifactValidity(|isNameExists| > 0, |isVersionExists| > 0, |isScopeExists| > 0)
  }

  lemma NonEmptyHasMember<T(!new)>(s: seq<T>)
    ensures |s| > 0 <==> exists x :: x in s
  {
    if |s| > 0 {
      assert s[0] in s;
    }
  }

  /**
   * The name is valid when some known artifact has it; the version and the scope are valid only when
   * an artifact of the same name has them, the scope compared without regard to case.
   */
  lemma ArtifactValidityMeaning(artifacts: seq<Artifact>, imported: Artifact)
    ensures var v := IsValidArtifact(artifacts, imported);
            && (v.name <==> exists a :: a in artifacts && a.name == imported.name)
            && (v.version <==> exists a :: a in artifacts && a.name == imported.name && a.version == imported.version)
            && (v.scope <==> exists a :: a in artifacts && a.name == imported.name
                                         && ToUpper(a.scope) == ToUpper(imported.scope))
            && (v.version ==> v.name) && (v.scope ==> v.name)
  {
    var isNameExists := Filter(artifacts, (a: Artifact) => a.name == imported.name);
    var isVersionExists := Filter(isNameExists, (a: Artifact) => a.version == imported.version);
    var isScopeExists := Filter(isNameExists, (a: Artifact) => ToUpper(a.scope) == ToUpper(imported.scope));
    NonEmptyHasMember(isNameExists);
    NonEmptyHasMember(isVersionExists);
    NonEmptyHasMember(isScopeExists);
  }

  /** Array.prototype.join */
  function Join(parts: seq<string>, separator: string): string
  {
    if parts == [] then ""
    else if |parts| == 1 then parts[0]
    else parts[0] + separator + Join(parts[1..], separator)
  }

  /** The message of the invalid-artifact alert, given the text naming the invalid fields. */
  function InvalidArtifactContent(invalidFields: string): string {
    "Imported pipeline has invalid artifact information: " + invalidFields + "."
  }

  /**
   * The fields the alert names: only the name when it is invalid; otherwise the version and then the
   * scope, each when it is invalid, and nothing else.
   */
  function InvalidFieldList(validity: ArtifactValidity): (fields: seq<string>)
    ensures !validity.name ==> fields == ["Artifact name"]
    ensures validity.name ==> "Artifact name" !in fields
    ensures validity.name ==> ("Artifact version" in fields <==> !validity.version)
    ensures validity.name ==> ("Artifact scope" in fields <==> !validity.scope)
    ensures validity.name ==> |fields| == (if validity.version then 0 else 1) + (if validity.scope then 0 else 1)
    ensures validity.name && !validity.version && !validity.scope ==> fields == ["Artifact version", "Artifact scope"]
  {
    if !validity.name then ["Artifact name"]
    else (if validity.version then [] else ["Artifact version"]) + (if validity.scope then [] else ["Artifact scope"])
  }

  /** A single field is shown as it is: joining one part gives that part, whatever the separator. */
  lemma JoinSingle(part: string, separator: string)
    ensures Join([part], separator) == part
  {
  }

  /**
   * The invalid-fields text of the alert: the one invalid field, or the version and the scope joined
   * with ", " when both are invalid.
   */
  lemma InvalidFieldsText(validity: ArtifactValidity)
    requires !(validity.name && validity.version && validity.scope)
    ensures var text := Join(InvalidFieldList(validity), ", ");
            && (!validity.name ==> text == "Artifact name")
            && (validity.name && !validity.version && validity.scope ==> text == "Artifact version")
            && (validity.name && validity.version && !validity.scope ==> text == "Artifact scope")
            && (validity.name && !validity.version && !validity.scope ==> text == "Artifact version, Artifact scope")
  {
    assert ["Artifact version", "Artifact scope"][1..] == ["Artifact scope"];
  }

  /** Builds the list of invalid fields by pushes and the text by the length test and join. */
  method InvalidFields(validity: ArtifactValidity) returns (invalidFields: seq<string>, text: string)
    ensures invalidFields == InvalidFieldList(validity)
    ensures text == Join(invalidFields, ", ")
  {
    invalidFields := [];
    if !validity.name {
      invalidFields := invalidFields + ["Artifact name"];
    } else {
      if !validity.version {
        invalidFields := invalidFields + ["Artifact version"];
      }
      if !validity.scope {
        invalidFields := invalidFields + ["Artifact scope"];
      }
    }
    if |invalidFields| == 1 {
      JoinSingle(invalidFields[0], ", ");
      assert invalidFields == [invalidFields[0]];
      text := invalidFields[0];
    } else {
      text := Join(invalidFields, ", ");
    }
  }

  /** The connections the import generates: stage i to stage i + 1, for every stage but the last. */
  function LinearConnections(stages: seq<Stage>): (r: seq<Connection>)
    ensures |r| == if |stages| == 0 then 0 else |stages| - 1
  {
    seq(if |stages| == 0 then 0 else |stages| - 1, i requires 0 <= i < |stages| - 1 =>
        Connection(stages[i].name, stages[i + 1].name))
  }

  /** generateLinearConnections */
  method GenerateLinearConnections(stages: seq<Stage>) returns (connections: seq<Connection>)
    ensures connections == LinearConnections(stages)
  {
    connections := [];
    var i := 0;
    while i < |stages| - 1
      invariant 0 <= i <= if |stages| == 0 then 0 else |stages| - 1
      invariant |connections| == i
      invariant forall k :: 0 <= k < i ==> connections[k] == Connection(stages[k].name, stages[k + 1].name)
    {
      connections := connections + [Connection(stages[i].name, stages[i + 1].name)];
      i := i + 1;
    }
  }

  /**
   * The generated connections chain the stages in order: the first leaves the first stage, the last
   * reaches the last stage, and each one starts where the previous one ends. A pipeline of one stage
   * or none gets no connection.
   */
  lemma LinearConnectionsChainStages(stages: seq<Stage>)
    ensures var c := LinearConnections(stages);
            && (|stages| <= 1 <==> c == [])
            && (|stages| >= 2 ==> c[0].from == stages[0].name && c[|c| - 1].to == stages[|stages| - 1].name)
            && (forall i :: 0 <= i < |c| - 1 ==> c[i].to == c[i + 1].from)
            && (forall i :: 0 <= i < |c| ==> c[i].from == stages[i].name && c[i].to == stages[i + 1].name)
  {
  }

  /** The preview kind of a stage: what pluginConvert maps its plugin type to, if anything. */
  function KindOf(pluginConvert: map<string, string>, stage: Stage): Option<string> {
    if stage.pluginType in pluginConvert then Some(pluginConvert[stage.pluginType]) else None
  }

  /** The names of the stages of a kind, in config order. */
  function StagesOfKind(stages: seq<Stage>, pluginConvert: map<string, string>, kind: string): seq<string>
    decreases |stages|
  {
    if stages == [] then []
    else
      var last := stages[|stages| - 1];
      StagesOfKind(stages[..|stages| - 1], pluginConvert, kind)
      + (if KindOf(pluginConvert, last) == Some(kind) then [last.name] else [])
  }

  /**
   * A name is listed for a kind exactly when some stage of that name has that kind; the list is no
   * longer than the config, and the sources and the sinks together are no more than the stages.
   */
  lemma {:induction false} StagesOfKindMembers(stages: seq<Stage>, pluginConvert: map<string, string>, kind: string)
    ensures forall name :: name in StagesOfKind(stages, pluginConvert, kind) <==>
              exists i :: 0 <= i < |stages| && stages[i].name == name && KindOf(pluginConvert, stages[i]) == Some(kind)
    ensures |StagesOfKind(stages, pluginConvert, SOURCE)| + |StagesOfKind(stages, pluginConvert, SINK)| <= |stages|
    decreases |stages|
  {
    if stages != [] {
      var front := stages[..|stages| - 1];
      StagesOfKindMembers(front, pluginConvert, kind);
      assert forall i :: 0 <= i < |front| ==> front[i] == stages[i];
      forall name | exists i :: 0 <= i < |stages| && stages[i].name == name && KindOf(pluginConvert, stages[i]) == Some(kind)
        ensures name in StagesOfKind(stages, pluginConvert, kind)
      {
        var i :| 0 <= i < |stages| && stages[i].name == name && KindOf(pluginConvert, stages[i]) == Some(kind);
        if i < |front| {
          assert front[i] == stages[i];
        }
      }
    }
  }

  /** The controller state these handlers read and update. */
  class TopPanelCtrl {
    /** The artifacts the studio knows (rArtifacts). */
    const artifacts: seq<Artifact>
    /** GLOBALS.pluginConvert: plugin type to 'source', 'sink', ... */
    const pluginConvert: map<string, string>
    var invalidName: bool
    var previewLoading: bool
    /** The alerts shown, in order. */
    var alerts: seq<Alert>

    constructor(artifacts: seq<Artifact>, pluginConvert: map<string, string>)
      ensures this.artifacts == artifacts && this.pluginConvert == pluginConvert
      ensures !invalidName && !previewLoading && alerts == []
    {
      this.artifacts := artifacts;
      this.pluginConvert := pluginConvert;
      invalidName := false;
      previewLoading := false;
      alerts := [];
    }

    /** checkNameError: the name is flagged exactly when the console holds a missing- or invalid-name message. */
    method CheckNameError(consoleMessages: Option<seq<ConsoleMessage>>)
      modifies this`invalidName
      ensures invalidName <==> exists m :: m in consoleMessages.GetOr([]) && m.messageType in NAME_ERROR_TYPES
    {
      var messages := consoleMessages.GetOr([]);
      var filteredMessages := Filter(messages, (m: ConsoleMessage) => m.messageType in NAME_ERROR_TYPES);
      NonEmptyHasMember(filteredMessages);
      invalidName := |filteredMessages| > 0;
    }

    /**
     * The start of runPreview: sources become the start stages and sinks the end stages, in config
     * order; without a source or without a sink the preview is refused with an alert.
     */
    method RunPreview(stages: seq<Stage>) returns (preview: Option<PreviewConfig>)
      modifies this`previewLoading, this`alerts
      ensures var starts := StagesOfKind(stages, pluginConvert, SOURCE);
              var ends := StagesOfKind(stages, pluginConvert, SINK);
              if starts == [] || ends == [] then
                preview == None && !previewLoading && alerts == old(alerts) + [NoSourceSink]
              else
                preview == Some(PreviewConfig(starts, ends)) && previewLoading && alerts == old(alerts)
    {
      previewLoading := true;
      var startStages: seq<string> := [];
      var endStages: seq<string> := [];
      for i := 0 to |stages|
        invariant startStages == StagesOfKind(stages[..i], pluginConvert, SOURCE)
        invariant endStages == StagesOfKind(stages[..i], pluginConvert, SINK)
      {
        assert stages[..i + 1][..i] == stages[..i];
        var node := stages[i];
        if node.pluginType in pluginConvert && pluginConvert[node.pluginType] == SOURCE {
          startStages := startStages + [node.name];
        } else if node.pluginType in pluginConvert && pluginConvert[node.pluginType] == SINK {
          endStages := endStages + [node.name];
        }
      }
      assert stages[..|stages|] == stages;
      if |startStages| == 0 || |endStages| == 0 {
        alerts := alerts + [NoSourceSink];
        previewLoading := false;
        preview := None;
        return;
      }
      preview := Some(PreviewConfig(startStages, endStages));
    }

    /**
     * importFile, once the file is read and parsed: a file whose name does not contain ".json" is
     * refused before reading; a config without connections gets linear ones; an artifact the studio
     * does not know is refused with an alert naming the invalid fields. Otherwise the pipeline is
     * loaded.
     */
    method ImportFile(fileName: string, pipeline: ImportedPipeline) returns (loaded: Option<ImportedPipeline>)
      modifies this`alerts
      ensures !Contains(fileName, ".json") ==> loaded == None && alerts == old(alerts) + [NotJson]
      ensures Contains(fileName, ".json") ==>
                var v := IsValidArtifact(artifacts, pipeline.artifact);
                if v.name && v.version && v.scope then
                  && loaded.Some? && alerts == old(alerts)
                  && loaded.value.artifact == pipeline.artifact && loaded.value.stages == pipeline.stages
                  && loaded.value.connections == Some(pipeline.connections.GetOr(LinearConnections(pipeline.stages)))
                else
                  && loaded == None
                  && alerts == old(alerts) + [InvalidArtifact(InvalidArtifactContent(Join(InvalidFieldList(v), ", ")))]
    {
      if IndexOf(fileName, ".json") == -1 {
        alerts := alerts + [NotJson];
        return None;
      }
      var jsonData := pipeline;
      if jsonData.connections.None? {
        var generated := GenerateLinearConnections(jsonData.stages);
        jsonData := jsonData.(connections := Some(generated));
      }
      var validArtifact := IsValidArtifact(artifacts, jsonData.artifact);
      if !validArtifact.name || !validArtifact.version || !validArtifact.scope {
        var _, invalidFields := InvalidFields(validArtifact);
        alerts := alerts + [InvalidArtifact(InvalidArtifactContent(invalidFields))];
        return None;
      }
      loaded := Some(jsonData);
    }
  }

  /** `sub` occurs in `s` at position k. */
  predicate OccursAt(s: string, sub: string, k: int) {
    0 <= k <= |s| - |sub| && s[k..k + |sub|] == sub
  }

  /** String.prototype.indexOf: the first position of `sub` in `s`, or -1. */
  function IndexOf(s: string, sub: string): (r: int)
    ensures r == -1 || OccursAt(s, sub, r)
    ensures r == -1 <==> forall k :: !OccursAt(s, sub, k)
    ensures forall k :: 0 <= k < r ==> !OccursAt(s, sub, k)
    decreases |s|
  {
    if |s| < |sub| then -1
    else if s[..|sub|] == sub then 0
    else
      var rest := IndexOf(s[1..], sub);
      forall k | 1 <= k
        ensures OccursAt(s, sub, k) <==> OccursAt(s[1..], sub, k - 1)
      {
        if k <= |s| - |sub| {
          var t := s[1..];
          assert t[k - 1..] == s[k..];
          assert t[k - 1..k - 1 + |sub|] == t[k - 1..][..|sub|];
          assert s[k..k + |sub|] == s[k..][..|sub|];
        }
      }
      assert !OccursAt(s, sub, 0);
      if rest == -1 then -1 else rest + 1
  }

  /** `s.indexOf(sub) !== -1` */
  ghost predicate Contains(s: string, sub: string) {
    exists k :: OccursAt(s, sub, k)
  }
}
