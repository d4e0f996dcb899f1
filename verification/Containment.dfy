/** What containment means for the caller's own text: no path argument, however spelled, is permitted when
    what it says lies outside the workspace. */
module Containment {
  import opened Prelude
  import opened Authorization
  import opened Paths
  import opened PathText
  import opened Boundary
  import opened EffectContracts
  import opened Effects
  import opened EffectMeaning
  import opened Policy

  predicate Absent(arguments: Arguments, k: string) {
    k !in arguments || arguments[k] == JNull
  }

  // The caller gave this text for argument k, alone or in a list.
  predicate Gave(arguments: Arguments, k: string, text: string) {
    k in arguments && (arguments[k] == JString(text) || (arguments[k].JArray? && JString(text) in arguments[k].items))
  }

  // A text, or a list of nothing but texts.
  predicate IsText(value: Json) {
    value.JString? || (value.JArray? && forall item | item in value.items :: item.JString?)
  }

  /** Which texts an argument stands for: those the caller gave, or the default when the caller gave
      nothing; and when it can stand for any at all. */
  lemma RawPathsMean(ps: PathArguments, k: string, arguments: Arguments, text: string)
    requires k in ps && ps[k].argument == k
    ensures RawPaths(ps[k], arguments).Ok? <==>
            if Absent(arguments, k) then ps[k].default.Some? || !ps[k].required else IsText(arguments[k])
    ensures RawPaths(ps[k], arguments).Ok? ==>
              (text in Raws(ps, k, arguments) <==>
               Gave(arguments, k, text) || (Absent(arguments, k) && ps[k].default == Some(text)))
  {
    if k in arguments && arguments[k].JArray? && AllStrings(arguments[k].items) {
      var items := arguments[k].items;
      if JString(text) in items {
        var i :| 0 <= i < |items| && items[i] == JString(text);
        assert Texts(items)[i] == text;
      }
      if text in Texts(items) {
        var i :| 0 <= i < |items| && Texts(items)[i] == text;
        assert items[i] == JString(text);
      }
    }
    if k in arguments && arguments[k].JArray? {
      assert AllStrings(arguments[k].items) <==> IsText(arguments[k]);
    }
  }

  // The places the texts of argument k are read against.
  ghost predicate IsBase(c: Contract, arguments: Arguments, root: Path, k: string, base: Path)
    requires Accepted(c) && k in c.paths.values
  {
    if c.paths.values[k].base.None? then base == root
    else c.paths.values[k].base.value in c.paths.values &&
         base in PathSet(c.paths.values, c.paths.values[k].base.value, arguments, root)
  }

  /** Whatever the caller's text says, read against its base, is among the declared effects. */
  lemma GivenTextIsDeclared(
    c: Contract, arguments: Table<Json>, root: Path, k: string, text: string, base: Path, target: Path, effect: Effect)
    requires Accepted(c) && k in c.paths.values && effect in c.paths.values[k].effects
    ensures Acceptable(c, arguments) && Gave(arguments.values, k, text) ==>
              IsBase(c, arguments.values, root, k, base) && base.absolute && ReadsAs(text, base, target) ==>
                Declared(c, arguments.values, root, effect, target)
  {
    var ps := c.paths.values;
    if Acceptable(c, arguments) && Gave(arguments.values, k, text) && IsBase(c, arguments.values, root, k, base)
       && base.absolute && ReadsAs(text, base, target)
    {
      assert Supplied(ps, k, arguments.values);
      RawPathsMean(ps, k, arguments.values, text);
      ArgumentPathMeans(text, base, target);
      assert target in PathSet(ps, k, arguments.values, root);
    }
  }

  // Argument k of the request's tool was given this text, which against this base says target.
  ghost predicate Says(
    e: Engine, request: OperationRequest, workspace: Workspace, k: string, text: string, base: Path, target: Path)
    requires e.Valid()
  {
    && workspace.root.absolute && base.absolute
    && ReadsAs(text, base, target)
    && request.tool in e.tools && e.tools[request.tool].contract.Some?
    && var c := e.tools[request.tool].contract.value;
       && k in c.paths.values && Gave(request.arguments.values, k, text)
       && IsBase(c, request.arguments.values, workspace.root, k, base)
  }

  lemma PermittedTextResolves(
    e: Engine, request: OperationRequest, grant: AccessGrant, workspace: Workspace, fs: FileSystem, now: Time,
    k: string, text: string, base: Path, target: Path)
    requires e.Valid() && request.arguments.Valid() && Says(e, request, workspace, k, text, base, target)
    requires !EvaluateWithGrant(e, request, grant, workspace, fs, now).Deny?
    ensures ResolveWithin(fs, workspace.root, target).Ok?
  {
    EvaluationIsFlat(e, request, grant, workspace, fs, now);
    var c := e.tools[request.tool].contract.value;
    assert ValidPathArgument(c.paths.values[k]);
    var effect :| effect in c.paths.values[k].effects;
    GivenTextIsDeclared(c, request.arguments, workspace.root, k, text, base, target, effect);
  }

  /** With links or without: a permitted operation has every text the caller gave for a path, read off its
      characters, at a real place inside the workspace. */
  lemma PermittedTextIsInside(
    e: Engine, request: OperationRequest, grant: AccessGrant, workspace: Workspace, fs: FileSystem, now: Time,
    k: string, text: string, base: Path, target: Path, n: nat)
    requires e.Valid() && request.arguments.Valid() && Says(e, request, workspace, k, text, base, target)
    requires AncestorEnds(fs, LexicalPath(target), n)
    ensures !EvaluateWithGrant(e, request, grant, workspace, fs, now).Deny? ==>
              var p := LexicalPath(target);
              var place := WhereItIs(fs, workspace.root, Path(p.absolute, p.components[..n]));
              place.Some? && Inside(workspace.root, Path(place.value.absolute, place.value.components + p.components[n..]))
  {
    if !EvaluateWithGrant(e, request, grant, workspace, fs, now).Deny? {
      PermittedTextResolves(e, request, grant, workspace, fs, now, k, text, base, target);
      ResolveIff(fs, workspace.root, target, n);
    }
  }

  // Every existing path is its own canonical form.
  ghost predicate WithoutLinks(fs: FileSystem) {
    && (forall p | p in fs.existing :: p.absolute ==> p in fs.canonical && fs.canonical[p] == p)
    && Path(true, []) in fs.canonical && fs.canonical[Path(true, [])] == Path(true, [])
  }

  /** Without links: an absolute text whose normal form is not under the root, or a relative one whose ".."
      climb above it, is denied, whatever else the request and the grant say. */
  lemma EscapingTextIsDenied(
    e: Engine, request: OperationRequest, grant: AccessGrant, workspace: Workspace, fs: FileSystem, now: Time,
    k: string, text: string, base: Path, target: Path)
    requires e.Valid() && request.arguments.Valid() && Says(e, request, workspace, k, text, base, target)
    requires WithoutLinks(fs) && !Inside(workspace.root, LexicalPath(target))
    ensures EvaluateWithGrant(e, request, grant, workspace, fs, now).Deny?
  {
    if !EvaluateWithGrant(e, request, grant, workspace, fs, now).Deny? {
      PermittedTextResolves(e, request, grant, workspace, fs, now, k, text, base, target);
      WithoutLinksContainmentIsLexical(fs, workspace.root, target);
    }
  }

  // Text no path argument may hold.
  predicate Foreign(text: string) {
    || (forall c | c in text :: IsWhitespace(c))
    || '\0' in text
    || (text != "" && (text[0] == '~' || text[0] == '$' || text[0] == '%'))
    || (|text| >= 2 && ('a' <= text[0] <= 'z' || 'A' <= text[0] <= 'Z') && text[1] == ':')
  }

  /** Blank text, text with a NUL, and text in the syntax of a shell or of another platform is denied in any
      path argument. */
  lemma ForeignTextIsDenied(
    e: Engine, request: OperationRequest, grant: AccessGrant, workspace: Workspace, fs: FileSystem, now: Time,
    k: string, text: string)
    requires e.Valid() && request.arguments.Valid() && request.tool in e.tools && e.tools[request.tool].contract.Some?
    requires k in e.tools[request.tool].contract.value.paths.values && Gave(request.arguments.values, k, text) && Foreign(text)
    ensures EvaluateWithGrant(e, request, grant, workspace, fs, now).Deny?
  {
    EvaluationIsFlat(e, request, grant, workspace, fs, now);
    if !EvaluateWithGrant(e, request, grant, workspace, fs, now).Deny? {
      var ps, arguments := e.tools[request.tool].contract.value.paths.values, request.arguments.values;
      assert Supplied(ps, k, arguments);
      RawPathsMean(ps, k, arguments, text);
      ForeignIsInvalid(text);
    }
  }

  lemma ForeignIsInvalid(text: string)
    requires Foreign(text)
    ensures !ValidPathText(text)
  {
  }
}
