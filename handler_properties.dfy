/**
 * What the auto-make loading handler guarantees, stated over the reference
 * definitions in `AutoMakeLoadHandler` for every behaviour of its
 * collaborators.
 */
module AutoMakeLoadProperties {
  import opened Wrappers
  import opened JavaStrings
  import opened Jars
  import opened AutoMakeLoadHandler

  /** The request passed validation and configuration loading, leaving `p1`, and routes on type `t`. */
  predicate RoutedAs(env: Env, p: Params, p1: Params, t: TemplateType) {
    NotEmptyField(p.projectKey)
    && env.getConfigInfo(p) == Value(p1)
    && EffectiveType(env.parseTemplateType(p1.templateType)) == t
  }

  predicate NoJarOpened(effects: seq<Effect>) {
    forall i :: 0 <= i < |effects| ==> !effects[i].JarOpened?
  }

  // ---------------------------------------------------------------------
  // Validation and type fallback

  /** Past validation and configuration, `doHandle` is the routed branch behind the boundary. */
  lemma HandleRoutes(env: Env, p: Params, p1: Params, t: TemplateType)
    requires RoutedAs(env, p, p1, t)
    ensures var routed := Route(env, p1, t);
      Handle(env, p) == HandleRun(Boundary(routed.out), routed.params, [ConfigLoaded] + routed.effects)
  {
  }

  /** A null or empty project key is rejected before any collaborator is called. */
  lemma ProjectKeyCheckedFirst(env: Env, p: Params)
    requires !NotEmptyField(p.projectKey)
    ensures Handle(env, p) == HandleRun(Err(ParamError, env.missingFieldMessage(ProjectKeyField)), p, [])
  {
  }

  /** An absent or unparseable template type behaves exactly like LOCAL. */
  lemma MissingTypeActsAsLocal(env: Env, env': Env, p: Params)
    requires env' == env.(parseTemplateType := env'.parseTemplateType)
    requires env.getConfigInfo(p).Value? ==>
      env.parseTemplateType(env.getConfigInfo(p).value.templateType).None?
    requires env.getConfigInfo(p).Value? ==>
      env'.parseTemplateType(env.getConfigInfo(p).value.templateType) == Some(Local)
    ensures Handle(env, p) == Handle(env', p)
  {
    assert env.getConfigInfo == env'.getConfigInfo;
    if NotEmptyField(p.projectKey) && env.getConfigInfo(p).Value? {
      var p1 := env.getConfigInfo(p).value;
      assert LocalBranch(env, p1) == LocalBranch(env', p1) by {
        assert env.fs == env'.fs && env.fileName == env'.fileName;
        assert env.contactPath == env'.contactPath && env.parseFilePath == env'.parseFilePath;
        assert env.getAutoMake == env'.getAutoMake && env.missingFieldMessage == env'.missingFieldMessage;
        if NotEmptyField(p1.templateBaseDir) {
          JarLoadIgnoresTypeParser(env, env', p1, p1.templateBaseDir.value);
        }
      }
    }
  }

  /** Jar loading never consults the template-type parser. */
  lemma JarLoadIgnoresTypeParser(env: Env, env': Env, p: Params, path: string)
    requires env' == env.(parseTemplateType := env'.parseTemplateType)
    ensures JarLoad(env, p, path) == JarLoad(env', p, path)
  {
    assert env.openJar == env'.openJar && env.openStream == env'.openStream && env.decode == env'.decode;
    assert env.getAutoMakeByContent == env'.getAutoMakeByContent;
    assert env.loadTemplateContent == env'.loadTemplateContent;
    assert env.parseMavenInfoByContent == env'.parseMavenInfoByContent;
  }

  /** A type other than LOCAL or MAVEN loads nothing and stores null. */
  lemma OtherTypeStoresNull(env: Env, p: Params, p1: Params)
    requires RoutedAs(env, p, p1, OtherType)
    ensures Handle(env, p) == HandleRun(Ok(None), p1, [ConfigLoaded])
  {
  }

  // ---------------------------------------------------------------------
  // The LOCAL branch

  lemma LocalBaseDirRequired(env: Env, p: Params, p1: Params)
    requires RoutedAs(env, p, p1, Local) && !NotEmptyField(p1.templateBaseDir)
    ensures Handle(env, p) == HandleRun(Err(ParamError, env.missingFieldMessage(TemplateBaseDirField)), p1, [ConfigLoaded])
  {
  }

  /** A base path that does not exist is a parameter error naming the path; nothing is opened. */
  lemma LocalPathMustExist(env: Env, p: Params, p1: Params)
    requires RoutedAs(env, p, p1, Local) && NotEmptyField(p1.templateBaseDir)
    requires p1.templateBaseDir.value !in env.fs
    ensures var r := Handle(env, p);
      r.status.Err? && r.status.code == ParamError
      && Contains(r.status.message, p1.templateBaseDir.value)
      && r.effects == [ConfigLoaded, PathProbed(p1.templateBaseDir.value)]
  {
    ContainsAppended(NoSuchPathMessage, p1.templateBaseDir.value);
  }

  /** A regular file whose name does not end in ".jar" is a parameter error naming the path. */
  lemma LocalFileMustBeJar(env: Env, p: Params, p1: Params)
    requires RoutedAs(env, p, p1, Local) && NotEmptyField(p1.templateBaseDir)
    requires var dir := p1.templateBaseDir.value;
      dir in env.fs && env.fs[dir] == RegularFile && !IsJarFile(env.fileName(dir))
    ensures var r := Handle(env, p);
      r.status.Err? && r.status.code == ParamError
      && Contains(r.status.message, p1.templateBaseDir.value)
      && NoJarOpened(r.effects)
  {
    ContainsAppended(NotJarMessage, p1.templateBaseDir.value);
  }

  /** A regular file named "*.jar" is loaded as a jar, from that very path. */
  lemma LocalJarFileIsLoaded(env: Env, p: Params, p1: Params)
    requires RoutedAs(env, p, p1, Local) && NotEmptyField(p1.templateBaseDir)
    requires var dir := p1.templateBaseDir.value;
      dir in env.fs && env.fs[dir] == RegularFile && IsJarFile(env.fileName(dir))
    ensures var dir := p1.templateBaseDir.value; var load := JarLoad(env, p1, dir);
      Handle(env, p) == HandleRun(Boundary(Lift(load.out)), p1, [ConfigLoaded] + ([PathProbed(dir)] + load.effects))
  {
    HandleRoutes(env, p, p1, Local);
    LocalJarBranch(env, p1);
  }

  lemma LocalJarBranch(env: Env, p1: Params)
    requires NotEmptyField(p1.templateBaseDir)
    requires var dir := p1.templateBaseDir.value;
      dir in env.fs && env.fs[dir] == RegularFile && IsJarFile(env.fileName(dir))
    ensures var dir := p1.templateBaseDir.value; var load := JarLoad(env, p1, dir);
      LocalBranch(env, p1) == Step(Lift(load.out), p1, [PathProbed(dir)] + load.effects)
  {
  }

  /**
   * A directory is never opened as a jar: the result is the parse of
   * `contactPath(dir, "autoCode.xml")`, which is also recorded in the params.
   */
  lemma LocalDirectoryIsParsedDirectly(env: Env, p: Params, p1: Params)
    requires RoutedAs(env, p, p1, Local) && NotEmptyField(p1.templateBaseDir)
    requires var dir := p1.templateBaseDir.value; dir in env.fs && env.fs[dir] == Directory
    ensures var dir := p1.templateBaseDir.value;
      var xmlPath := env.contactPath(dir, AutoCodeXmlFileName);
      var r := Handle(env, p);
      r.status == Boundary(Lift(env.getAutoMake(env.parseFilePath(xmlPath), env.parseFilePath(dir))))
      && r.params == p1.(autoXmlPath := Some(xmlPath))
      && NoJarOpened(r.effects)
  {
  }

  // ---------------------------------------------------------------------
  // The MAVEN branch

  /** The resolver is asked to refresh exactly when `flushMaven` is the YES constant. */
  lemma MavenForceRefreshFlag(env: Env, p: Params, p1: Params)
    requires RoutedAs(env, p, p1, Maven)
    ensures var effects := Handle(env, p).effects;
      |effects| >= 2 && effects[1].ResolverCalled? && effects[1].resource == p1.mavenResource
      && (effects[1].forceRefresh <==> p1.flushMaven == Some(env.yes))
  {
  }

  /** An unsuccessful resolution is a `Failure` carrying the resolver's message; no jar is opened. */
  lemma MavenResolutionFailure(env: Env, p: Params, p1: Params, message: string)
    requires RoutedAs(env, p, p1, Maven)
    requires env.getMavenTemplateFile(p1.mavenResource, p1.flushMaven == Some(env.yes)) == Value(NotResolved(message))
    ensures var r := Handle(env, p);
      r.status == Err(Failure, message) && NoJarOpened(r.effects)
  {
  }

  /** A successful resolution loads the jar at the returned path. */
  lemma MavenResolvedJarIsLoaded(env: Env, p: Params, p1: Params, file: string)
    requires RoutedAs(env, p, p1, Maven)
    requires env.getMavenTemplateFile(p1.mavenResource, p1.flushMaven == Some(env.yes)) == Value(Resolved(file))
    ensures var load := JarLoad(env, p1, file); var r := Handle(env, p);
      r.status == Boundary(Lift(load.out))
      && r.effects == [ConfigLoaded] + ([ResolverCalled(p1.mavenResource, p1.flushMaven == Some(env.yes))] + load.effects)
  {
    HandleRoutes(env, p, p1, Maven);
    MavenJarBranch(env, p1, file);
  }

  lemma MavenJarBranch(env: Env, p1: Params, file: string)
    requires env.getMavenTemplateFile(p1.mavenResource, p1.flushMaven == Some(env.yes)) == Value(Resolved(file))
    ensures var load := JarLoad(env, p1, file);
      MavenBranch(env, p1)
      == Step(Lift(load.out), p1, [ResolverCalled(p1.mavenResource, p1.flushMaven == Some(env.yes))] + load.effects)
  {
  }

  // ---------------------------------------------------------------------
  // Jar loading

  /** A jar that cannot be opened is an ordinary exception, so it surfaces as `Exception`. */
  lemma JarOpenFailureIsWrapped(env: Env, p: Params, path: string, m: Option<string>)
    requires env.openJar(path) == OpenError(m)
    ensures var load := JarLoad(env, p, path);
      load.effects == [JarOpened(path)]
      && Boundary(Lift(load.out)) == Err(Exception, LoadFailedPrefix + JavaMessage(m))
  {
  }

  /** Without an entry named exactly "autoCode.xml" the load fails with `Failure`. */
  lemma JarWithoutDefinitionFails(env: Env, p: Params, path: string, jar: Jar)
    requires env.openJar(path) == Opened(jar)
    requires forall j :: 0 <= j < |jar| ==> jar[j].name != AutoCodeXmlFileName
    ensures var load := JarLoad(env, p, path);
      load.effects == [JarOpened(path)]
      && Boundary(Lift(load.out)) == Err(Failure, NoAutoCodeXmlMessage)
  {
  }

  /**
   * With the definition entry present, the model is the parse of its
   * content (after template loading when requested), completed by the pom scan.
   */
  lemma JarDefinitionIsParsed(env: Env, p: Params, path: string, jar: Jar, i: nat, text: string, am: AutoMake)
    requires env.openJar(path) == Opened(jar)
    requires i < |jar| && jar[i].name == AutoCodeXmlFileName
    requires forall j :: 0 <= j < i ==> jar[j].name != AutoCodeXmlFileName
    requires env.openStream(jar[i]) == StreamReady
    requires env.decode(jar[i].content) == Text(text)
    requires env.getAutoMakeByContent(text) == Value(am)
    ensures var out := JarLoad(env, p, path).out;
      if !p.loadTemplateContent then out == PomScan(env, jar, am).out
      else match env.loadTemplateContent(am, jar)
        case Raise(e) => out == Raise(e)
        case Value(am') => out == PomScan(env, jar, am').out
  {
    FirstMatchIsUnique(jar, n => n == AutoCodeXmlFileName, i);
  }

  /** The "autoCode.xml" stream is left open when decoding it throws (the code has no `finally` there). */
  lemma DefinitionStreamLeaksOnDecodeError(env: Env, p: Params, path: string, jar: Jar, m: Option<string>)
    requires env.openJar(path) == Opened(jar)
    requires GetJarEntry(jar, AutoCodeXmlFileName).Some?
    requires env.openStream(jar[GetJarEntry(jar, AutoCodeXmlFileName).value]) == StreamReady
    requires env.decode(jar[GetJarEntry(jar, AutoCodeXmlFileName).value].content) == DecodeError(m)
    ensures var load := JarLoad(env, p, path);
      load.effects == [JarOpened(path), StreamOpened(AutoCodeXmlFileName)]
      && load.out == Raise(OtherException(m))
  {
  }

  /** A definition entry whose stream cannot be opened is an ordinary exception; no stream was opened. */
  lemma DefinitionStreamOpenFailure(env: Env, p: Params, path: string, jar: Jar, m: Option<string>)
    requires env.openJar(path) == Opened(jar)
    requires GetJarEntry(jar, AutoCodeXmlFileName).Some?
    requires env.openStream(jar[GetJarEntry(jar, AutoCodeXmlFileName).value]) == StreamFailed(m)
    ensures var load := JarLoad(env, p, path);
      load.effects == [JarOpened(path)]
      && Boundary(Lift(load.out)) == Err(Exception, LoadFailedPrefix + JavaMessage(m))
  {
  }

  /** The pom scan only opens and closes one pom entry stream. */
  lemma PomScanEffects(env: Env, jar: Jar, am: AutoMake)
    ensures var effects := PomScan(env, jar, am).effects;
      effects == []
      || (|effects| == 2 && effects[0].StreamOpened? && IsPomEntryName(effects[0].entry)
          && effects[1] == StreamClosed(effects[0].entry))
  {
  }

  /** The pom scan makes no call other than opening and closing an entry stream. */
  lemma PomScanOnlyTouchesStreams(env: Env, jar: Jar, am: AutoMake)
    ensures var effects := PomScan(env, jar, am).effects;
      forall i :: 0 <= i < |effects| ==> effects[i].StreamOpened? || effects[i].StreamClosed?
  {
  }

  /** Without the request, the definition is read and the pom scan follows directly. */
  lemma JarLoadWithoutTemplates(env: Env, p: Params, path: string, jar: Jar, text: string, am: AutoMake)
    requires !p.loadTemplateContent
    requires env.openJar(path) == Opened(jar)
    requires GetJarEntry(jar, AutoCodeXmlFileName).Some?
    requires env.openStream(jar[GetJarEntry(jar, AutoCodeXmlFileName).value]) == StreamReady
    requires env.decode(jar[GetJarEntry(jar, AutoCodeXmlFileName).value].content) == Text(text)
    requires env.getAutoMakeByContent(text) == Value(am)
    ensures JarLoad(env, p, path) == Run(PomScan(env, jar, am).out,
      [JarOpened(path), StreamOpened(AutoCodeXmlFileName), StreamClosed(AutoCodeXmlFileName)]
      + PomScan(env, jar, am).effects)
  {
  }

  /** Template content is loaded only when requested. */
  lemma TemplateContentOnlyWhenRequested(env: Env, p: Params, path: string)
    requires !p.loadTemplateContent
    ensures var effects := JarLoad(env, p, path).effects;
      forall i :: 0 <= i < |effects| ==> effects[i] != TemplateContentLoaded && effects[i] != JarBoundToThread
  {
    var head := [JarOpened(path), StreamOpened(AutoCodeXmlFileName), StreamClosed(AutoCodeXmlFileName)];
    var effects := JarLoad(env, p, path).effects;
    match env.openJar(path)
    case OpenError(_) =>
      NoTemplateEffects(head[..1], []);
      assert effects == head[..1] + [];
    case Opened(jar) =>
      match GetJarEntry(jar, AutoCodeXmlFileName)
      case None =>
        NoTemplateEffects(head[..1], []);
        assert effects == head[..1] + [];
      case Some(k) =>
        match env.openStream(jar[k])
        case StreamFailed(_) =>
          NoTemplateEffects(head[..1], []);
          assert effects == head[..1] + [];
        case StreamReady =>
          match env.decode(jar[k].content)
          case DecodeError(_) =>
            NoTemplateEffects(head[..2], []);
            assert effects == head[..2] + [];
          case Text(text) =>
            match env.getAutoMakeByContent(text)
            case Raise(_) =>
              NoTemplateEffects(head, []);
              assert effects == head + [];
            case Value(am) =>
              JarLoadWithoutTemplates(env, p, path, jar, text, am);
              PomScanOnlyTouchesStreams(env, jar, am);
              NoTemplateEffects(head, PomScan(env, jar, am).effects);
  }

  /** Jar and stream effects followed by stream effects contain no template loading. */
  lemma NoTemplateEffects(prefix: seq<Effect>, rest: seq<Effect>)
    requires forall i :: 0 <= i < |prefix| ==> prefix[i].JarOpened? || prefix[i].StreamOpened? || prefix[i].StreamClosed?
    requires forall i :: 0 <= i < |rest| ==> rest[i].StreamOpened? || rest[i].StreamClosed?
    ensures var all := prefix + rest;
      forall i :: 0 <= i < |all| ==> all[i] != TemplateContentLoaded && all[i] != JarBoundToThread
  {
    var all := prefix + rest;
    forall i | 0 <= i < |all|
      ensures all[i] != TemplateContentLoaded && all[i] != JarBoundToThread
    {
      if i >= |prefix| { assert all[i] == rest[i - |prefix|]; }
    }
  }

  /**
   * When requested, the jar is bound to the thread and template content is
   * loaded after the definition is read and before the pom scan starts.
   */
  lemma TemplatesLoadedBeforePomScan(env: Env, p: Params, path: string, jar: Jar, text: string, am: AutoMake, am': AutoMake)
    requires p.loadTemplateContent
    requires env.openJar(path) == Opened(jar)
    requires GetJarEntry(jar, AutoCodeXmlFileName).Some?
    requires env.openStream(jar[GetJarEntry(jar, AutoCodeXmlFileName).value]) == StreamReady
    requires env.decode(jar[GetJarEntry(jar, AutoCodeXmlFileName).value].content) == Text(text)
    requires env.getAutoMakeByContent(text) == Value(am)
    requires env.loadTemplateContent(am, jar) == Value(am')
    ensures JarLoad(env, p, path) == Run(PomScan(env, jar, am').out,
      [JarOpened(path), StreamOpened(AutoCodeXmlFileName), StreamClosed(AutoCodeXmlFileName),
       JarBoundToThread, TemplateContentLoaded] + PomScan(env, jar, am').effects)
  {
  }

  // ---------------------------------------------------------------------
  // The pom scan

  /** A pom entry is a name ending in "pom.xml" with "META-INF" at some position. */
  lemma PomEntryNameMeaning(name: string)
    ensures IsPomEntryName(name) <==>
      |PomSuffix| <= |name| && name == name[..|name| - |PomSuffix|] + PomSuffix
      && exists i :: OccursAt(name, MetaInfMarker, i)
  {
    EndsWithIsAppend(name, PomSuffix);
    if Contains(name, MetaInfMarker) {
      ContainsHasPosition(name, MetaInfMarker);
    } else if exists i :: OccursAt(name, MetaInfMarker, i) {
      var i :| OccursAt(name, MetaInfMarker, i);
      ContainsAt(name, MetaInfMarker, i);
    }
  }

  /** No pom entry: the model is returned unchanged and nothing is read. */
  lemma PomScanWithoutMatch(env: Env, jar: Jar, am: AutoMake)
    requires forall j :: 0 <= j < |jar| ==> !IsPomEntryName(jar[j].name)
    ensures PomScan(env, jar, am) == Run(Value(am), [])
  {
  }

  /** The first pom entry's parse becomes the model's Maven resource; its stream is closed. */
  lemma PomScanTakesFirstMatch(env: Env, jar: Jar, am: AutoMake, k: nat, text: string, info: Option<MavenResource>)
    requires k < |jar| && IsPomEntryName(jar[k].name)
    requires forall j :: 0 <= j < k ==> !IsPomEntryName(jar[j].name)
    requires env.openStream(jar[k]) == StreamReady
    requires env.decode(jar[k].content) == Text(text)
    requires env.parseMavenInfoByContent(text) == Value(info)
    ensures PomScan(env, jar, am)
      == Run(Value(am.(mavenResource := info)), [StreamOpened(jar[k].name), StreamClosed(jar[k].name)])
  {
    FirstMatchIsUnique(jar, IsPomEntryName, k);
  }

  /** A failing read or parse of the pom propagates as thrown (the decode's I/O exception, the parser's own exception), yet the stream is still closed. */
  lemma PomScanFailureClosesStream(env: Env, jar: Jar, am: AutoMake, k: nat)
    requires k < |jar| && IsPomEntryName(jar[k].name)
    requires forall j :: 0 <= j < k ==> !IsPomEntryName(jar[j].name)
    requires env.openStream(jar[k]) == StreamReady
    requires env.decode(jar[k].content).DecodeError?
      || env.parseMavenInfoByContent(env.decode(jar[k].content).text).Raise?
    ensures var r := PomScan(env, jar, am); var decoded := env.decode(jar[k].content);
      && (decoded.DecodeError? ==> r.out == Raise(OtherException(decoded.message)))
      && (decoded.Text? ==> r.out == Raise(env.parseMavenInfoByContent(decoded.text).exc))
      && r.effects == [StreamOpened(jar[k].name), StreamClosed(jar[k].name)]
  {
    FirstMatchIsUnique(jar, IsPomEntryName, k);
  }

  /** A pom entry whose stream cannot be opened fails before the `try`: nothing is opened or closed. */
  lemma PomStreamOpenFailure(env: Env, jar: Jar, am: AutoMake, k: nat, m: Option<string>)
    requires k < |jar| && IsPomEntryName(jar[k].name)
    requires forall j :: 0 <= j < k ==> !IsPomEntryName(jar[j].name)
    requires env.openStream(jar[k]) == StreamFailed(m)
    ensures PomScan(env, jar, am) == Run(Raise(OtherException(m)), [])
  {
    FirstMatchIsUnique(jar, IsPomEntryName, k);
  }

  /** Entries after the first pom match never influence the scan. */
  lemma PomScanIgnoresLaterEntries(env: Env, jar: Jar, rest: Jar, am: AutoMake)
    requires FirstMatch(jar, IsPomEntryName).Some?
    ensures PomScan(env, jar + rest, am) == PomScan(env, jar, am)
  {
    FirstMatchIgnoresLaterEntries(jar, rest, IsPomEntryName);
    var k := FirstMatch(jar, IsPomEntryName).value;
    assert (jar + rest)[k] == jar[k];
  }

  // ---------------------------------------------------------------------
  // The error boundary

  /** A domain exception from anywhere in the `try` block surfaces with its own code and message. */
  lemma DomainExceptionRethrown(env: Env, p: Params, message: string, code: ResultCode)
    requires Body(env, p).out == Raise(AutoCodeException(message, code))
    ensures Handle(env, p).status == Err(code, message)
  {
  }

  /** Any other exception surfaces as `Exception`, the fixed prefix followed by its message. */
  lemma OtherExceptionWrapped(env: Env, p: Params, detail: Option<string>)
    requires Body(env, p).out == Raise(OtherException(detail))
    ensures Handle(env, p).status == Err(Exception, LoadFailedPrefix + JavaMessage(detail))
  {
  }
}
