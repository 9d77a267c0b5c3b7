# AutoMakeLoadHandler, modelled in Dafny

In the molicode code generator, the handler `AutoMakeLoadHandler` loads the template-definition
("auto-make") model for a generation request. `doHandle` does the following:

- It validates `projectKey` and calls `getConfigInfo`.
- It parses the template type. A null result falls back to LOCAL.
- It routes the request:
  - LOCAL with a base directory: the file `autoCode.xml` is read from that directory.
  - LOCAL with a base path that is a regular `.jar` file: the definition is read from that jar.
  - MAVEN: the resolver returns a jar, and the definition is read from it.
- It publishes the model into the request context under `"autoMake"`.

Loading from a jar works in three steps:

1. It looks up the entry `autoCode.xml` and parses it. The model matches that name exactly (see "Left out" for the JDK's directory fallback).
2. When asked, it loads the template bodies.
3. It scans the entries for the first one whose name ends in `pom.xml` and contains `META-INF`. That entry's parse becomes the model's Maven coordinates.

Every `java.lang.Exception` thrown in the `try` block leaves `doHandle` as an `AutoCodeException`:

- A domain exception is rethrown unchanged.
- Any other `Exception` gets result code `EXCEPTION`. Its message is the fixed prefix followed by the original message.
- A `java.lang.Error` is not caught and escapes as it is. The model has no such throw (see "Left out").

Files:

- `wrappers.dfy`: `Option`, which stands for Java's `null`.
- `java_strings.dfy`: `EndsWith` and `Contains`, with lemmas that say what they mean.
- `jars.dfy`: a jar as a sequence of `(name, content)` entries in enumeration order.
  - `FirstMatch` is the first-match search.
  - `GetJarEntry` is the exact-name lookup.
- `handler.dfy`: the handler itself.
  - Data model: `Params`, `AutoMake`, `Exc`, `Effect`, and `Env`, which holds the collaborators.
  - Reference functions: `PomScan`, `JarLoad`, `LocalBranch`, `MavenBranch`, `Route` and `Body`, plus `Handle` for `doHandle` as a whole.
  - `LoadMavenInfo`: the scan of `loadMavenInfo`, a `while` loop with `break`, proved equal to `PomScan`.
  - `DoHandle`: updates a `MoliCodeContext` object in place, proved against `Handle`.
- `handler_properties.dfy`: the properties, as lemmas over the reference functions.

Every collaborator is a field of `Env`, so each property holds for any values the collaborators return. Most collaborators may also throw any exception. Some are taken never to throw, and "Left out" lists each of them. The collaborators are:

- the file system: a map from path to `RegularFile | Directory`, where a missing path does not exist;
- `JarFile` opening;
- `jarFile.getInputStream`, which opens an entry stream or throws;
- `IOUtils.toString`, which decodes an open stream or throws;
- the XML parsers;
- `FileUtil.contactPath`, `SystemFileUtils.parseFilePath` and `File.getName`;
- the Maven resolver;
- `getConfigInfo` and `loadTemplateContent`;
- `parseToNullSafe`;
- the message `ValidateUtils` builds;
- the value of the "yes" constant.

The following calls are recorded as `Effect`s, in the order they are made: path probes, the directory branch's `getAutoMake` parse, jar and stream opens, stream closes, Maven resolution, configuration loading, the thread binding and template loading. Decoding a stream (`IOUtils.toString`) and parsing its content (`getAutoMakeByContent`, `parseMavenInfoByContent`) are not recorded. They happen only after a `StreamOpened`, before that stream is closed or leaked. The recorded calls make ordering claims provable:

- nothing is touched before validation;
- no jar is opened when resolution fails;
- once the pom stream is open, it is closed on every path;
- template bodies are loaded before the pom scan.

## What the code does that one might not expect (the model follows the code)

- A jar without `autoCode.xml` and a failed Maven resolution both get result code `FAILURE`. No separate kinds exist.
- A jar that cannot be opened is an ordinary exception, so it is wrapped as `EXCEPTION` and not reported as a distinct I/O error. The same holds for an entry stream that cannot be opened and for a failed decode.
- Reading or parsing the pom is not best-effort: an exception there propagates out of `doHandle`. Only a missing pom entry is harmless.
  - A domain exception from `parseMavenInfoByContent` is rethrown unchanged.
  - Any other exception there is wrapped as `EXCEPTION`.
- The wrapping `AutoCodeException` at line 109 is built without `e` as its cause. The original exception is only logged, and its stack trace is not kept on the rethrow.
- The `JarFile` is never closed. The `autoCode.xml` stream is left open when decoding it throws (`DefinitionStreamLeaksOnDecodeError`). Only the pom stream is closed in a `finally`.
- The pom stream is opened before its `try`. When `getInputStream` throws, no stream exists and the `finally` does not run (`PomStreamOpenFailure`).
- A template type other than LOCAL or MAVEN takes neither branch. It stores `null` under `"autoMake"` (`OtherTypeStoresNull`) and is not treated as LOCAL.
- The parameters are updated in place: `setAutoXmlPath` in the directory branch, and whatever `getConfigInfo` changes. This holds even when the later parse throws.

## Model

| member | source | states |
|---|---|---|
| `AutoMakeLoadHandler.IsJarFile` | molicode-service/src/main/java/com/shareyi/molicode/hander/gencode/loader/AutoMakeLoadHandler.java:150-152 | true exactly when the name is some stem followed by ".jar" |
| `AutoMakeLoadHandler.EffectiveType` | molicode-service/src/main/java/com/shareyi/molicode/hander/gencode/loader/AutoMakeLoadHandler.java:72-76 | a parsed type is kept; a null parse becomes LOCAL |
| `AutoMakeLoadHandler.Translate` | molicode-service/src/main/java/com/shareyi/molicode/hander/gencode/loader/AutoMakeLoadHandler.java:105-110 | every exception becomes an error; an AutoCodeException keeps its code and message; any other exception gets EXCEPTION with the fixed prefix followed by its message (or "null") |
| `AutoMakeLoadHandler.LoadMavenInfo` | molicode-service/src/main/java/com/shareyi/molicode/hander/gencode/loader/AutoMakeLoadHandler.java:161-181 | the scan loop with `break` and the guarded read give exactly the outcome and stream effects of `PomScan` |
| `AutoMakeLoadHandler.NotEmptyField` | molicode-service/src/main/java/com/shareyi/molicode/hander/gencode/loader/AutoMakeLoadHandler.java:70 | no contract of its own; `ProjectKeyCheckedFirst` and `LocalBaseDirRequired` state that a null or empty field is rejected with PARAM_ERROR before any further call |
| `AutoMakeLoadHandler.IsPomEntryName` | molicode-service/src/main/java/com/shareyi/molicode/hander/gencode/loader/AutoMakeLoadHandler.java:167 | no contract of its own; `PomEntryNameMeaning` states that it holds exactly of names that end with "pom.xml" and have "META-INF" at some position |
| `AutoMakeLoadHandler.Boundary` | molicode-service/src/main/java/com/shareyi/molicode/hander/gencode/loader/AutoMakeLoadHandler.java:104-110 | no contract of its own; `DomainExceptionRethrown` and `OtherExceptionWrapped` state what a throw from the try block becomes, and `HandleRoutes` states that normal completion returns the routed model |
| `AutoMakeLoadHandler.PomScan` | molicode-service/src/main/java/com/shareyi/molicode/hander/gencode/loader/AutoMakeLoadHandler.java:161-181 | no contract of its own; `PomScanWithoutMatch`, `PomScanTakesFirstMatch`, `PomScanFailureClosesStream`, `PomStreamOpenFailure`, `PomScanIgnoresLaterEntries`, `PomScanEffects` and `PomScanOnlyTouchesStreams` state its behaviour |
| `AutoMakeLoadHandler.JarLoad` | molicode-service/src/main/java/com/shareyi/molicode/hander/gencode/loader/AutoMakeLoadHandler.java:121-142 | no contract of its own; `JarOpenFailureIsWrapped`, `JarWithoutDefinitionFails`, `DefinitionStreamOpenFailure`, `DefinitionStreamLeaksOnDecodeError`, `JarDefinitionIsParsed`, `JarLoadWithoutTemplates`, `TemplateContentOnlyWhenRequested` and `TemplatesLoadedBeforePomScan` state its behaviour |
| `AutoMakeLoadHandler.LocalBranch` | molicode-service/src/main/java/com/shareyi/molicode/hander/gencode/loader/AutoMakeLoadHandler.java:77-93 | no contract of its own; `LocalBaseDirRequired`, `LocalPathMustExist`, `LocalFileMustBeJar`, `LocalJarBranch` and `LocalDirectoryIsParsedDirectly` state its four outcomes |
| `AutoMakeLoadHandler.MavenBranch` | molicode-service/src/main/java/com/shareyi/molicode/hander/gencode/loader/AutoMakeLoadHandler.java:94-102 | no contract of its own; `MavenForceRefreshFlag`, `MavenResolutionFailure` and `MavenJarBranch` state its outcomes |
| `AutoMakeLoadHandler.Route` | molicode-service/src/main/java/com/shareyi/molicode/hander/gencode/loader/AutoMakeLoadHandler.java:77-103 | no contract of its own; `HandleRoutes` ties it to `doHandle`, and `OtherTypeStoresNull` and `MissingTypeActsAsLocal` state the two fallbacks |
| `AutoMakeLoadHandler.Body` | molicode-service/src/main/java/com/shareyi/molicode/hander/gencode/loader/AutoMakeLoadHandler.java:68-104 | no contract of its own; `ProjectKeyCheckedFirst` and `HandleRoutes` state its validation and routing; `DomainExceptionRethrown` and `OtherExceptionWrapped` state what its throws become |
| `AutoMakeLoadHandler.Handle` | molicode-service/src/main/java/com/shareyi/molicode/hander/gencode/loader/AutoMakeLoadHandler.java:67-111 | no contract of its own; the `AutoMakeLoadProperties` lemmas state its behaviour case by case, and `DoHandle` is proved against it |
| `AutoMakeLoadHandler.MoliCodeContext.constructor` | molicode-service/src/main/java/com/shareyi/molicode/hander/gencode/loader/AutoMakeLoadHandler.java:67-68 | a new context holds the given parameters and store and an empty effect log (`MoliCodeContext`'s own source is not part of this model) |
| `AutoMakeLoadHandler.DoHandle` | molicode-service/src/main/java/com/shareyi/molicode/hander/gencode/loader/AutoMakeLoadHandler.java:67-111 | the status, the new params and the appended effects are those of `Handle`; on success only key "autoMake" is written, holding the model (possibly null); on failure the store is unchanged |
| `Jars.FirstMatch` | molicode-service/src/main/java/com/shareyi/molicode/hander/gencode/loader/AutoMakeLoadHandler.java:162-171 | the index found satisfies the test and no earlier entry does; when nothing is found, no entry satisfies the test |
| `Jars.FirstMatchIgnoresLaterEntries` | molicode-service/src/main/java/com/shareyi/molicode/hander/gencode/loader/AutoMakeLoadHandler.java:164-170 | once a match exists, appending entries does not change the result (the `break`) |
| `Jars.FirstMatchIsUnique` | molicode-service/src/main/java/com/shareyi/molicode/hander/gencode/loader/AutoMakeLoadHandler.java:164-170 | an entry that satisfies the test with no earlier entry satisfying it is the match found |
| `Jars.GetJarEntry` | molicode-service/src/main/java/com/shareyi/molicode/hander/gencode/loader/AutoMakeLoadHandler.java:125-126 | a found entry has exactly the requested name; when nothing is found, no entry has it |
| `JavaStrings.EndsWith` | molicode-service/src/main/java/com/shareyi/molicode/hander/gencode/loader/AutoMakeLoadHandler.java:151 | no contract of its own; `EndsWithIsAppend` states its meaning |
| `JavaStrings.Contains` | molicode-service/src/main/java/com/shareyi/molicode/hander/gencode/loader/AutoMakeLoadHandler.java:167 | no contract of its own; `ContainsAt` and `ContainsHasPosition` state that it holds exactly when the substring occurs at some position |
| `JavaStrings.ContainsAt` | molicode-service/src/main/java/com/shareyi/molicode/hander/gencode/loader/AutoMakeLoadHandler.java:167 | an occurrence at any position makes `Contains` true |
| `JavaStrings.ContainsAppended` | molicode-service/src/main/java/com/shareyi/molicode/hander/gencode/loader/AutoMakeLoadHandler.java:81 | a message built as prefix + path contains the path |
| `JavaStrings.ContainsHasPosition` | molicode-service/src/main/java/com/shareyi/molicode/hander/gencode/loader/AutoMakeLoadHandler.java:167 | `Contains` implies an occurrence at some position (the converse of `ContainsAt`) |
| `JavaStrings.EndsWithIsAppend` | molicode-service/src/main/java/com/shareyi/molicode/hander/gencode/loader/AutoMakeLoadHandler.java:151 | a string ends with a suffix exactly when it is some string followed by that suffix |
| `AutoMakeLoadProperties.HandleRoutes` | molicode-service/src/main/java/com/shareyi/molicode/hander/gencode/loader/AutoMakeLoadHandler.java:70-104 | once validation and the config load succeed, doHandle is the routed branch behind the error boundary, preceded by the config load |
| `AutoMakeLoadProperties.ProjectKeyCheckedFirst` | molicode-service/src/main/java/com/shareyi/molicode/hander/gencode/loader/AutoMakeLoadHandler.java:69-71 | a null or empty projectKey gives PARAM_ERROR with no effect at all: no config load, no type parsing, no file or jar access |
| `AutoMakeLoadProperties.MissingTypeActsAsLocal` | molicode-service/src/main/java/com/shareyi/molicode/hander/gencode/loader/AutoMakeLoadHandler.java:72-77 | two environments that differ only in the type parser, one giving null and the other LOCAL, produce identical runs |
| `AutoMakeLoadProperties.OtherTypeStoresNull` | molicode-service/src/main/java/com/shareyi/molicode/hander/gencode/loader/AutoMakeLoadHandler.java:72-104 | a type that is neither LOCAL nor MAVEN succeeds with a null model after only the config load |
| `AutoMakeLoadProperties.LocalBaseDirRequired` | molicode-service/src/main/java/com/shareyi/molicode/hander/gencode/loader/AutoMakeLoadHandler.java:78 | LOCAL with an empty templateBaseDir gives PARAM_ERROR before any path probe |
| `AutoMakeLoadProperties.LocalPathMustExist` | molicode-service/src/main/java/com/shareyi/molicode/hander/gencode/loader/AutoMakeLoadHandler.java:79-82 | a non-existent path gives PARAM_ERROR whose message contains templateBaseDir; the only effects are the config load and the probe |
| `AutoMakeLoadProperties.LocalFileMustBeJar` | molicode-service/src/main/java/com/shareyi/molicode/hander/gencode/loader/AutoMakeLoadHandler.java:83-86 | a regular file whose name does not end in ".jar" gives PARAM_ERROR naming the path; no jar is opened |
| `AutoMakeLoadProperties.LocalJarFileIsLoaded` | molicode-service/src/main/java/com/shareyi/molicode/hander/gencode/loader/AutoMakeLoadHandler.java:83-87 | a regular ".jar" file is loaded by jar loading of that same path |
| `AutoMakeLoadProperties.LocalJarBranch` | molicode-service/src/main/java/com/shareyi/molicode/hander/gencode/loader/AutoMakeLoadHandler.java:83-87 | the LOCAL branch on a regular ".jar" file is the jar load of that path, after the path probe |
| `AutoMakeLoadProperties.LocalDirectoryIsParsedDirectly` | molicode-service/src/main/java/com/shareyi/molicode/hander/gencode/loader/AutoMakeLoadHandler.java:88-93 | a directory is never opened as a jar; autoXmlPath becomes contactPath(dir, "autoCode.xml"); the result is getAutoMake of the two normalised paths |
| `AutoMakeLoadProperties.MavenForceRefreshFlag` | molicode-service/src/main/java/com/shareyi/molicode/hander/gencode/loader/AutoMakeLoadHandler.java:95-96 | the resolver gets the request's coordinates, and force-refresh is true exactly when flushMaven equals the YES constant |
| `AutoMakeLoadProperties.MavenResolutionFailure` | molicode-service/src/main/java/com/shareyi/molicode/hander/gencode/loader/AutoMakeLoadHandler.java:97-99 | a non-success resolver result gives FAILURE with the resolver's message; no jar is opened |
| `AutoMakeLoadProperties.MavenResolvedJarIsLoaded` | molicode-service/src/main/java/com/shareyi/molicode/hander/gencode/loader/AutoMakeLoadHandler.java:100-101 | on success, the status is that of jar loading of the returned file, and the effects are the config load, the resolver call, then jar loading's effects |
| `AutoMakeLoadProperties.MavenJarBranch` | molicode-service/src/main/java/com/shareyi/molicode/hander/gencode/loader/AutoMakeLoadHandler.java:100-101 | the MAVEN branch on a resolved file is the jar load of that file, after the resolver call |
| `AutoMakeLoadProperties.JarOpenFailureIsWrapped` | molicode-service/src/main/java/com/shareyi/molicode/hander/gencode/loader/AutoMakeLoadHandler.java:121-123 | a jar that fails to open surfaces as EXCEPTION with the prefix and the I/O message |
| `AutoMakeLoadProperties.JarWithoutDefinitionFails` | molicode-service/src/main/java/com/shareyi/molicode/hander/gencode/loader/AutoMakeLoadHandler.java:125-128 | with no entry named exactly "autoCode.xml", the load fails with FAILURE and the fixed message, and nothing is read |
| `AutoMakeLoadProperties.JarDefinitionIsParsed` | molicode-service/src/main/java/com/shareyi/molicode/hander/gencode/loader/AutoMakeLoadHandler.java:125-141 | the model is the parse of the first entry named "autoCode.xml", passed through template loading only when requested, then through the pom scan |
| `AutoMakeLoadProperties.DefinitionStreamOpenFailure` | molicode-service/src/main/java/com/shareyi/molicode/hander/gencode/loader/AutoMakeLoadHandler.java:130 | when opening the "autoCode.xml" stream throws, the load surfaces as EXCEPTION with the prefix and the message; no stream is recorded as opened |
| `AutoMakeLoadProperties.DefinitionStreamLeaksOnDecodeError` | molicode-service/src/main/java/com/shareyi/molicode/hander/gencode/loader/AutoMakeLoadHandler.java:130-132 | when decoding "autoCode.xml" throws, its stream is opened and never closed |
| `AutoMakeLoadProperties.JarLoadWithoutTemplates` | molicode-service/src/main/java/com/shareyi/molicode/hander/gencode/loader/AutoMakeLoadHandler.java:130-141 | without loadTemplateContent, the effects are open, then read the definition, then the pom scan on the parsed model |
| `AutoMakeLoadProperties.TemplateContentOnlyWhenRequested` | molicode-service/src/main/java/com/shareyi/molicode/hander/gencode/loader/AutoMakeLoadHandler.java:135-138 | without loadTemplateContent, jar loading neither binds the jar to the thread nor loads template content |
| `AutoMakeLoadProperties.TemplatesLoadedBeforePomScan` | molicode-service/src/main/java/com/shareyi/molicode/hander/gencode/loader/AutoMakeLoadHandler.java:135-140 | with loadTemplateContent, the effects are open, read definition, bind jar, load templates, and only then the pom scan, which runs on the loaded model |
| `AutoMakeLoadProperties.PomScanEffects` | molicode-service/src/main/java/com/shareyi/molicode/hander/gencode/loader/AutoMakeLoadHandler.java:172-180 | the pom scan either touches nothing or opens and then closes one stream, for a pom entry |
| `AutoMakeLoadProperties.PomScanOnlyTouchesStreams` | molicode-service/src/main/java/com/shareyi/molicode/hander/gencode/loader/AutoMakeLoadHandler.java:172-180 | the pom scan makes no outside call other than opening and closing an entry stream |
| `AutoMakeLoadProperties.PomEntryNameMeaning` | molicode-service/src/main/java/com/shareyi/molicode/hander/gencode/loader/AutoMakeLoadHandler.java:167 | a name passes the pom test exactly when it is some stem followed by "pom.xml" and "META-INF" occurs in it at some position |
| `AutoMakeLoadProperties.PomScanWithoutMatch` | molicode-service/src/main/java/com/shareyi/molicode/hander/gencode/loader/AutoMakeLoadHandler.java:161-172 | with no matching entry, the model is returned unchanged, no error is raised and nothing is read |
| `AutoMakeLoadProperties.PomScanTakesFirstMatch` | molicode-service/src/main/java/com/shareyi/molicode/hander/gencode/loader/AutoMakeLoadHandler.java:162-176 | the first matching entry in enumeration order is read; its parse becomes the maven info; its stream is closed |
| `AutoMakeLoadProperties.PomScanFailureClosesStream` | molicode-service/src/main/java/com/shareyi/molicode/hander/gencode/loader/AutoMakeLoadHandler.java:173-179 | when decoding the pom throws, the scan raises that I/O exception with its message; when the parser throws, the scan raises the parser's own exception unchanged (so a domain exception reaches `DomainExceptionRethrown` as is); either way the stream is opened and then closed |
| `AutoMakeLoadProperties.PomStreamOpenFailure` | molicode-service/src/main/java/com/shareyi/molicode/hander/gencode/loader/AutoMakeLoadHandler.java:172-173 | when opening the first pom entry's stream throws, the exception propagates and nothing is opened or closed |
| `AutoMakeLoadProperties.PomScanIgnoresLaterEntries` | molicode-service/src/main/java/com/shareyi/molicode/hander/gencode/loader/AutoMakeLoadHandler.java:164-171 | entries after the first match never change the scan's outcome or effects |
| `AutoMakeLoadProperties.DomainExceptionRethrown` | molicode-service/src/main/java/com/shareyi/molicode/hander/gencode/loader/AutoMakeLoadHandler.java:105-106 | an AutoCodeException thrown anywhere in the try block surfaces with its own code and message |
| `AutoMakeLoadProperties.OtherExceptionWrapped` | molicode-service/src/main/java/com/shareyi/molicode/hander/gencode/loader/AutoMakeLoadHandler.java:107-109 | any other exception surfaces as EXCEPTION, with the fixed prefix followed by its message |

## Left out

- File, jar and network I/O: `File.exists`/`isFile`, `JarFile`, `getInputStream`, `IOUtils.toString` and the configured encoding are collaborators in `Env`. Entry contents are opaque strings.
- `FileUtil.contactPath`, `SystemFileUtils.parseFilePath` and `File.getName` are total functions in `Env`: the model has no path in which they throw.
- `ThreadLocalHolder.setJarFileToCodeContext` is taken to return normally.
- `EnumCode.Parser.parseToNullSafe` and `File.exists`/`isFile` are taken never to throw. The parser is a plain function in `Env` giving a type or null, and the file system is a plain map. A `SecurityException` from the file probes is therefore not modelled.
- `java.lang.Error` (for example `OutOfMemoryError`): no collaborator in the model throws one. In the code it would escape the `catch (Exception e)` unwrapped.
- The cause chain of the wrapping exception and the log line are not modelled. The model keeps only the code and message.
- The semantics of the XML parsers, `FileUtil.contactPath`, `SystemFileUtils.parseFilePath`, `File.getName`, `EnumCode.Parser.parseToNullSafe` and `MavenService.getMavenTemplateFile`: their sources are not part of this model, so they are uninterpreted fields of `Env`.
- `ValidateUtils.notEmptyField`: its source is not part of this model.
  - A null `AutoCodeParams` from `context.getAutoCodeParams()` is not modelled: `Params` is always a value. What `notEmptyField(null, …)` does with it is unknown.
  - The model treats null or "" as empty. Whether a whitespace-only value also counts as empty is not modelled.
  - It is assumed to throw an `AutoCodeException` with `PARAM_ERROR`. The message is an uninterpreted function of the field name.
- `getConfigInfo` and `loadTemplateContent` are opaque. They return the updated parameters or model, or throw. When `getConfigInfo` throws, the parameters are taken to be unchanged.
- `ThreadLocalHolder.setJarFileToCodeContext` is only recorded as an effect. Thread-local state is not modelled.
- The Java method `loadAutoMakeFromJarFile` is modelled by the function `JarLoad`, not by a method: it has no loop and changes no state of its own. The one loop on this path, in `loadMavenInfo`, is the method `LoadMavenInfo`.
- Parsers, resolver and loaders that return `null` are not modelled: the model assumes a value or an exception. `getDefaultModel()` is likewise assumed non-null, and `getLoadTemplateContent()` is a plain boolean. The exception is `parseMavenInfoByContent`, which may return null.
- `AutoMakeVo` is a value. `setMavenResourceVo` and the in-place template loading are functional updates, so aliasing of the model object is not captured.
- `getJarEntry` is modelled as an exact-name lookup by `GetJarEntry`.
  - With duplicate entry names, the model takes the first entry in enumeration order. Which duplicate the JDK's `getJarEntry` returns is not modelled; its hash lookup most likely returns the last one in central-directory order. `JarDefinitionIsParsed` therefore speaks of the first entry, which may differ from the code's choice on such jars.
  - The JDK's `ZipFile.getEntry` also accepts an entry named `autoCode.xml/`, which is a directory, when no exact entry exists. That trailing-slash fallback is not modelled. For a jar whose only such entry is the directory, the code reads an empty stream and most likely fails the parse with `EXCEPTION`. The model reports `FAILURE` with the missing-definition message instead.
- Closing the `JarFile`: the code never closes it, so no "no leak" property is stated.
- `getOrder` and `shouldHandle`, and the handler-chain runner that calls them: they are constant (2 and true) and outside the handler's own logic.
- Concurrency: each request owns its context, and the model covers one request.
- `MoliCodeConstant` apart from the `"autoMake"` key, and `ExceptionMaker`: constants and one-line constructors with no logic.
