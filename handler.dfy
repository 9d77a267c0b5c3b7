/**
 * The auto-make loading handler: validates the request, picks a template
 * source (a local directory, a local `.jar`, or a jar resolved from Maven),
 * loads the `autoCode.xml` definition from it, and publishes the result into
 * the request context under "autoMake".
 *
 * Every collaborator the handler calls (file system, jar opener, entry
 * stream opener, decoder, XML parsers, path helpers, Maven resolver,
 * configuration loader, template loader) is a field of `Env`; the model holds
 * for any values they return or exceptions they throw, except that the path
 * helpers and the thread-local binding are taken to return normally.
 * The functions below (`PomScan`, `JarLoad`, `Body`, `Handle`) are the
 * reference definitions. `LoadMavenInfo` runs the pom scan's loop and
 * `DoHandle` updates the request context; both are proved against them.
 */
module AutoMakeLoadHandler {
  import opened Wrappers
  import opened JavaStrings
  import opened Jars

  // ---------------------------------------------------------------------
  // Constants

  /** The conventional definition file, looked up by exact entry name. */
  const AutoCodeXmlFileName := "autoCode.xml"
  /** The context key the loaded model is published under. */
  const CtxKeyAutoMake := "autoMake"
  const JarSuffix := ".jar"
  const PomSuffix := "pom.xml"
  const MetaInfMarker := "META-INF"
  const ProjectKeyField := "projectKey"
  const TemplateBaseDirField := "templateBaseDir"

  const NoSuchPathMessage := "文件目录不存在，templateBaseDir="
  const NotJarMessage := "文件不是jar file，templateBaseDir="
  const NoAutoCodeXmlMessage := "maven下载的jar包中，没有autoCode.xml配置文件!"
  /** Prefix of the message of every wrapped non-domain exception. */
  const LoadFailedPrefix := "加载AutoMake.xml配置文件失败，原因是："

  // ---------------------------------------------------------------------
  // Data model

  datatype ResultCode = ParamError | Failure | Exception

  /** The values `TemplateTypeEnum` may parse to; `OtherType` stands for any further constant. */
  datatype TemplateType = Local | Maven | OtherType

  /** The parsed template tree; its shape belongs to the XML parser. */
  type TemplateTree(==)

  /** Maven coordinates (`MavenResourceVo`). */
  datatype MavenResource = MavenResource(groupId: string, artifactId: string, version: string)

  /** The definition model (`AutoMakeVo`) with its attached Maven coordinates. */
  datatype AutoMake = AutoMake(tree: TemplateTree, mavenResource: Option<MavenResource>)

  /** The request parameters (`AutoCodeParams`); `None` stands for `null`. */
  datatype Params = Params(
    projectKey: Option<string>,
    templateType: Option<string>,
    templateBaseDir: Option<string>,
    mavenResource: Option<MavenResource>,
    flushMaven: Option<string>,
    loadTemplateContent: bool,
    autoXmlPath: Option<string>)

  /** What exists at a path; a path missing from the file-system map does not exist. */
  datatype FsNode = RegularFile | Directory

  /** A thrown exception: the domain `AutoCodeException`, or anything else with its (possibly null) message. */
  datatype Exc =
    | AutoCodeException(message: string, code: ResultCode)
    | OtherException(detail: Option<string>)

  /** What a collaborator call does: return a value or throw. */
  datatype Outcome<T> = Value(value: T) | Raise(exc: Exc)

  /** `new JarFile(path)`: opens, or fails with an `IOException`. */
  datatype Opened = Opened(jar: Jar) | OpenError(message: Option<string>)

  /** `jarFile.getInputStream(entry)`: a stream, or a `ZipException`/`IOException`. */
  datatype StreamOpen = StreamReady | StreamFailed(message: Option<string>)

  /** `IOUtils.toString` on an entry stream: text, or an `IOException`. */
  datatype Decoded = Text(text: string) | DecodeError(message: Option<string>)

  /** `CommonResult<File>` returned by the Maven resolver. */
  datatype MavenFileResult = Resolved(file: string) | NotResolved(message: string)

  /** A call the handler makes into the outside world, in the order made. */
  datatype Effect =
    | ConfigLoaded                                   // autoMakeService.getConfigInfo
    | PathProbed(path: string)                       // new File(..).exists / isFile
    | DefinitionFileParsed(xmlPath: string, baseDir: string)  // XmlUtils.getAutoMake
    | ResolverCalled(resource: Option<MavenResource>, forceRefresh: bool)
    | JarOpened(path: string)                        // new JarFile(..)
    | StreamOpened(entry: string)                    // jarFile.getInputStream(..)
    | StreamClosed(entry: string)                    // IOUtils.closeQuietly(..)
    | JarBoundToThread                               // ThreadLocalHolder.setJarFileToCodeContext
    | TemplateContentLoaded                          // autoMakeService.loadTemplateContent

  /** The collaborators, as uninterpreted functions. */
  datatype Env = Env(
    fs: map<string, FsNode>,
    missingFieldMessage: string -> string,
    getConfigInfo: Params -> Outcome<Params>,
    parseTemplateType: Option<string> -> Option<TemplateType>,
    fileName: string -> string,
    contactPath: (string, string) -> string,
    parseFilePath: string -> string,
    getAutoMake: (string, string) -> Outcome<AutoMake>,
    yes: string,
    getMavenTemplateFile: (Option<MavenResource>, bool) -> Outcome<MavenFileResult>,
    openJar: string -> Opened,
    openStream: JarEntry -> StreamOpen,
    decode: string -> Decoded,
    getAutoMakeByContent: string -> Outcome<AutoMake>,
    loadTemplateContent: (AutoMake, Jar) -> Outcome<AutoMake>,
    parseMavenInfoByContent: string -> Outcome<Option<MavenResource>>)

  /** A value-producing step together with the effects it performed. */
  datatype Run<T> = Run(out: Outcome<T>, effects: seq<Effect>)

  /** The `try` block: its outcome, the parameters afterwards, its effects. */
  datatype Step = Step(out: Outcome<Option<AutoMake>>, params: Params, effects: seq<Effect>)

  /** What `doHandle` ends with: it returns (the stored model, possibly null) or throws a domain exception. */
  datatype Status = Ok(model: Option<AutoMake>) | Err(code: ResultCode, message: string)

  datatype HandleRun = HandleRun(status: Status, params: Params, effects: seq<Effect>)

  // ---------------------------------------------------------------------
  // Small decisions

  /** `ValidateUtils.notEmptyField`: the field is neither null nor "". */
  predicate NotEmptyField(field: Option<string>) {
    field.Some? && |field.value| > 0
  }

  /** The exception `ValidateUtils.notEmptyField` throws for `field`. */
  function MissingField(env: Env, field: string): Exc {
    AutoCodeException(env.missingFieldMessage(field), ParamError)
  }

  /** `isJarFile`: the name ends with ".jar". */
  function IsJarFile(name: string): (r: bool)
    ensures r <==> |JarSuffix| <= |name| && name == name[..|name| - |JarSuffix|] + JarSuffix
  {
    EndsWithIsAppend(name, JarSuffix);
    EndsWith(name, JarSuffix)
  }

  /** The entry-name test of `loadMavenInfo`. */
  predicate IsPomEntryName(name: string) {
    EndsWith(name, PomSuffix) && Contains(name, MetaInfMarker)
  }

  /** The type after `parseToNullSafe` and the null fallback. */
  function EffectiveType(parsed: Option<TemplateType>): (t: TemplateType)
    ensures parsed.Some? ==> t == parsed.value
    ensures parsed.None? ==> t == Local
  {
    match parsed
    case None => Local
    case Some(t) => t
  }

  /** Java's string conversion of a possibly null message. */
  function JavaMessage(m: Option<string>): string {
    match m
    case None => "null"
    case Some(s) => s
  }

  /** The `catch` clauses: domain exceptions unchanged, all others wrapped as `Exception`. */
  function Translate(e: Exc): (r: Status)
    ensures r.Err?
    ensures e.AutoCodeException? ==> r.code == e.code && r.message == e.message
    ensures e.OtherException? ==> r.code == Exception && StartsWith(r.message, LoadFailedPrefix)
    ensures e.OtherException? ==> r.message[|LoadFailedPrefix|..] == JavaMessage(e.detail)
  {
    match e
    case AutoCodeException(m, c) => Err(c, m)
    case OtherException(m) => Err(Exception, LoadFailedPrefix + JavaMessage(m))
  }

  /** The `try` boundary: a normal completion is `Ok`, a throw is translated. */
  function Boundary(o: Outcome<Option<AutoMake>>): Status {
    match o
    case Value(m) => Ok(m)
    case Raise(e) => Translate(e)
  }

  function Lift(o: Outcome<AutoMake>): Outcome<Option<AutoMake>> {
    match o
    case Value(m) => Value(Some(m))
    case Raise(e) => Raise(e)
  }

  // ---------------------------------------------------------------------
  // Reference definitions of the three operations

  /**
   * `loadMavenInfo`: read the first pom entry (if any) into the model. The
   * stream is opened before the `try`, so a failure to open it leaves
   * nothing to close; once open, it is closed in `finally`.
   */
  function PomScan(env: Env, jar: Jar, am: AutoMake): Run<AutoMake> {
    match FirstMatch(jar, IsPomEntryName)
    case None => Run(Value(am), [])
    case Some(k) =>
      var name := jar[k].name;
      match env.openStream(jar[k])
      case StreamFailed(m) => Run(Raise(OtherException(m)), [])
      case StreamReady =>
        var effects := [StreamOpened(name), StreamClosed(name)];
        match env.decode(jar[k].content)
        case DecodeError(m) => Run(Raise(OtherException(m)), effects)
        case Text(t) =>
          match env.parseMavenInfoByContent(t)
          case Raise(e) => Run(Raise(e), effects)
          case Value(info) => Run(Value(am.(mavenResource := info)), effects)
  }

  /** `loadAutoMakeFromJarFile`. The jar is never closed; the `autoCode.xml` stream stays open if decoding throws. */
  function JarLoad(env: Env, p: Params, path: string): Run<AutoMake> {
    var openEffects := [JarOpened(path)];
    match env.openJar(path)
    case OpenError(m) => Run(Raise(OtherException(m)), openEffects)
    case Opened(jar) =>
      match GetJarEntry(jar, AutoCodeXmlFileName)
      case None => Run(Raise(AutoCodeException(NoAutoCodeXmlMessage, Failure)), openEffects)
      case Some(i) =>
        match env.openStream(jar[i])
        case StreamFailed(m) => Run(Raise(OtherException(m)), openEffects)
        case StreamReady =>
          var reading := openEffects + [StreamOpened(AutoCodeXmlFileName)];
          match env.decode(jar[i].content)
          case DecodeError(m) => Run(Raise(OtherException(m)), reading)
          case Text(t) =>
            var read := reading + [StreamClosed(AutoCodeXmlFileName)];
            match env.getAutoMakeByContent(t)
            case Raise(e) => Run(Raise(e), read)
            case Value(am) =>
              if p.loadTemplateContent then
                var loaded := read + [JarBoundToThread, TemplateContentLoaded];
                match env.loadTemplateContent(am, jar)
                case Raise(e) => Run(Raise(e), loaded)
                case Value(am') =>
                  var scan := PomScan(env, jar, am');
                  Run(scan.out, loaded + scan.effects)
              else
                var scan := PomScan(env, jar, am);
                Run(scan.out, read + scan.effects)
  }

  /** The LOCAL branch of `doHandle`. */
  function LocalBranch(env: Env, p: Params): Step {
    if !NotEmptyField(p.templateBaseDir) then
      Step(Raise(MissingField(env, TemplateBaseDirField)), p, [])
    else
      var dir := p.templateBaseDir.value;
      var probed := [PathProbed(dir)];
      if dir !in env.fs then
        Step(Raise(AutoCodeException(NoSuchPathMessage + dir, ParamError)), p, probed)
      else if env.fs[dir].RegularFile? then
        if !IsJarFile(env.fileName(dir)) then
          Step(Raise(AutoCodeException(NotJarMessage + dir, ParamError)), p, probed)
        else
          var load := JarLoad(env, p, dir);
          Step(Lift(load.out), p, probed + load.effects)
      else
        var p' := p.(autoXmlPath := Some(env.contactPath(dir, AutoCodeXmlFileName)));
        var xmlPath := env.parseFilePath(p'.autoXmlPath.value);
        var baseDir := env.parseFilePath(dir);
        Step(Lift(env.getAutoMake(xmlPath, baseDir)), p', probed + [DefinitionFileParsed(xmlPath, baseDir)])
  }

  /** The MAVEN branch of `doHandle`. */
  function MavenBranch(env: Env, p: Params): Step {
    var force := p.flushMaven == Some(env.yes);
    var called := [ResolverCalled(p.mavenResource, force)];
    match env.getMavenTemplateFile(p.mavenResource, force)
    case Raise(e) => Step(Raise(e), p, called)
    case Value(NotResolved(m)) => Step(Raise(AutoCodeException(m, Failure)), p, called)
    case Value(Resolved(file)) =>
      var load := JarLoad(env, p, file);
      Step(Lift(load.out), p, called + load.effects)
  }

  /** Source routing on the effective template type; any other type loads nothing. */
  function Route(env: Env, p: Params, t: TemplateType): Step {
    match t
    case Local => LocalBranch(env, p)
    case Maven => MavenBranch(env, p)
    case OtherType => Step(Value(None), p, [])
  }

  /** The `try` block of `doHandle`. */
  function Body(env: Env, p: Params): Step {
    if !NotEmptyField(p.projectKey) then
      Step(Raise(MissingField(env, ProjectKeyField)), p, [])
    else
      match env.getConfigInfo(p)
      case Raise(e) => Step(Raise(e), p, [ConfigLoaded])
      case Value(p1) =>
        var routed := Route(env, p1, EffectiveType(env.parseTemplateType(p1.templateType)));
        Step(routed.out, routed.params, [ConfigLoaded] + routed.effects)
  }

  /** `doHandle` as a whole: the `try` block behind the error boundary. */
  function Handle(env: Env, p: Params): HandleRun {
    var body := Body(env, p);
    HandleRun(Boundary(body.out), body.params, body.effects)
  }

  // ---------------------------------------------------------------------
  // The loop and the context update, imperatively

  /** `loadMavenInfo`: a first-match scan over the entries, then the read of the match. */
  method LoadMavenInfo(env: Env, jar: Jar, am: AutoMake) returns (out: Outcome<AutoMake>, effects: seq<Effect>)
    ensures Run(out, effects) == PomScan(env, jar, am)
  {
    var pomEntry: Option<nat> := None;
    var i := 0;
    while i < |jar|
      invariant 0 <= i <= |jar|
      invariant forall j :: 0 <= j < i ==> !IsPomEntryName(jar[j].name)
      decreases |jar| - i
    {
      if IsPomEntryName(jar[i].name) {
        FirstMatchIsUnique(jar, IsPomEntryName, i);
        pomEntry := Some(i);
        break;
      }
      i := i + 1;
    }
    out, effects := Value(am), [];
    if pomEntry.Some? {
      var entry := jar[pomEntry.value];
      var stream := env.openStream(entry);
      if stream.StreamFailed? {
        return Raise(OtherException(stream.message)), [];
      }
      effects := [StreamOpened(entry.name)];
      var decoded := env.decode(entry.content);
      if decoded.DecodeError? {
        out := Raise(OtherException(decoded.message));
      } else {
        var parsed := env.parseMavenInfoByContent(decoded.text);
        if parsed.Raise? {
          out := Raise(parsed.exc);
        } else {
          out := Value(am.(mavenResource := parsed.value));
        }
      }
      effects := effects + [StreamClosed(entry.name)];
    }
  }

  /** Values other handlers keep in the context are opaque here. */
  datatype CtxValue = AutoMakeValue(model: Option<AutoMake>) | ForeignValue(description: string)

  /** `MoliCodeContext`: the request parameters, the shared key/value store, and a log of outside calls. */
  class MoliCodeContext {
    var params: Params
    var store: map<string, CtxValue>
    var effects: seq<Effect>

    constructor (params: Params, store: map<string, CtxValue>)
      ensures this.params == params && this.store == store && effects == []
    {
      this.params := params;
      this.store := store;
      effects := [];
    }
  }

  /**
   * `doHandle`: on success the model (possibly null) is stored under
   * "autoMake" and no other key changes; on failure the store is untouched.
   */
  method DoHandle(env: Env, ctx: MoliCodeContext) returns (status: Status)
    modifies ctx
    ensures var run := Handle(env, old(ctx.params));
      status == run.status && ctx.params == run.params && ctx.effects == old(ctx.effects) + run.effects
    ensures status.Ok? ==> ctx.store == old(ctx.store)[CtxKeyAutoMake := AutoMakeValue(status.model)]
    ensures status.Err? ==> ctx.store == old(ctx.store)
  {
    var body := Body(env, ctx.params);
    ctx.params := body.params;
    ctx.effects := ctx.effects + body.effects;
    status := Boundary(body.out);
    if status.Ok? {
      ctx.store := ctx.store[CtxKeyAutoMake := AutoMakeValue(status.model)];
    }
  }
}
