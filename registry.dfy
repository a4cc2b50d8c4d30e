/**
 * The fixed language registry (`LANGUAGE_CONFIGS`) of the execution service:
 * for each supported language the Docker image, the command that runs the
 * deployed source file, and that file's extension.
 */
module Registry {
  import opened Wrappers

  /** The four keys of the registry. */
  datatype Language = Python | JavaScript | C | Cpp

  datatype LanguageConfig = LanguageConfig(image: string, command: seq<string>, fileExtension: string)

  /** The registry's entries in declaration order, which is also the order discovery tries them in. */
  const Languages: seq<Language> := [Python, JavaScript, C, Cpp]

  /** The directory inside a container that code is deployed to and run from. */
  const CodeDir: string := "/code"

  /** The key a language has in the registry and on the wire. */
  function Key(language: Language): string
  {
    match language
    case Python => "python"
    case JavaScript => "javascript"
    case C => "c"
    case Cpp => "cpp"
  }

  /** `LANGUAGE_CONFIGS[key]` is defined exactly for the four keys. */
  function Lookup(key: string): (r: Option<Language>)
    ensures r.Some? ==> Key(r.value) == key
    ensures r.None? <==> key !in ["python", "javascript", "c", "cpp"]
  {
    if key == "python" then Some(Python)
    else if key == "javascript" then Some(JavaScript)
    else if key == "c" then Some(C)
    else if key == "cpp" then Some(Cpp)
    else None
  }

  /** `LANGUAGE_CONFIGS[key]` for a key the registry has. */
  function Config(language: Language): LanguageConfig
  {
    LanguageConfig(Image(language), Command(language), FileExtension(language))
  }

  /** The Docker image, `<name>:<tag>`. */
  function Image(language: Language): string
  {
    ImageName(language) + ":" + ImageTag(language)
  }

  /**
   * The image name a language's containers are recognised by, the part of the
   * image before the colon (`ImageNameIsBase`).
   */
  function ImageName(language: Language): string
  {
    match language
    case Python => "python"
    case JavaScript => "node"
    case C => "gcc"
    case Cpp => "gcc"
  }

  function ImageTag(language: Language): string
  {
    match language
    case Python => "3.10-slim"
    case JavaScript => "18-slim"
    case C => "latest"
    case Cpp => "latest"
  }

  /** The command each language runs; the compile lines are written as three pieces that join to one string. */
  function Command(language: Language): seq<string>
  {
    match language
    case Python => ["python", "-u", "/code/main.py"]
    case JavaScript => ["node", "/code/main.js"]
    case C => ["/bin/sh", "-c", "gcc " + "/code/main.c" + " -o /code/main && /code/main"]
    case Cpp => ["/bin/sh", "-c", "g++ " + "/code/main.cpp" + " -o /code/main && /code/main"]
  }

  function FileExtension(language: Language): string
  {
    match language
    case Python => "py"
    case JavaScript => "js"
    case C => "c"
    case Cpp => "cpp"
  }

  /** The name of the single file packed into the deployment archive (`createTarStreamFromCode`). */
  function FileName(language: Language): string
  {
    "main." + FileExtension(language)
  }

  /** The path the deployed file has inside the container. */
  function DeployedPath(language: Language): string
  {
    CodeDir + "/" + FileName(language)
  }

  /** `image.split(":")[0]`: everything before the first colon. */
  function ImageBase(image: string): string
  {
    if image == [] || image[0] == ':' then [] else [image[0]] + ImageBase(image[1..])
  }

  predicate IsPrefix(p: string, s: string)
  {
    |p| <= |s| && s[..|p|] == p
  }

  predicate OccursAt(s: string, t: string, k: int)
  {
    0 <= k <= |s| - |t| && s[k..k + |t|] == t
  }

  ghost predicate Contains(s: string, t: string)
  {
    exists k :: OccursAt(s, t, k)
  }

  /** The position of the first of `candidates` whose image name starts `image`, or `|candidates|`. */
  function FirstMatch(image: string, candidates: seq<Language>): (k: nat)
    ensures k <= |candidates|
    ensures k < |candidates| ==> IsPrefix(ImageName(candidates[k]), image)
    ensures forall j :: 0 <= j < k ==> !IsPrefix(ImageName(candidates[j]), image)
  {
    if candidates == [] then 0
    else if IsPrefix(ImageName(candidates[0]), image) then 0
    else 1 + FirstMatch(image, candidates[1..])
  }

  /**
   * The language a discovered container is claimed for: the first registry entry,
   * in declaration order, whose image name starts the container's image.
   */
  function MatchLanguage(image: string): (r: Option<Language>)
    ensures r.Some? ==> IsPrefix(ImageName(r.value), image)
  {
    var k := FirstMatch(image, Languages);
    if k < |Languages| then Some(Languages[k]) else None
  }

  /** A container is left unclaimed exactly when no language's image name starts its image. */
  lemma MatchLanguageNone(image: string)
    ensures MatchLanguage(image).None? <==> forall l: Language :: !IsPrefix(ImageName(l), image)
  {
    if MatchLanguage(image).None? {
      forall l: Language ensures !IsPrefix(ImageName(l), image) {
        assert Languages[IndexOf(l)] == l;
      }
    }
  }

  function IndexOf(language: Language): (i: nat)
    ensures i < |Languages| && Languages[i] == language
  {
    match language
    case Python => 0
    case JavaScript => 1
    case C => 2
    case Cpp => 3
  }

  /** Keys and languages correspond one to one: the registry has exactly four entries. */
  lemma KeyRoundTrip(language: Language, key: string)
    ensures Lookup(Key(language)) == Some(language)
    ensures Lookup(key) == Some(language) ==> Key(language) == key
    ensures Lookup(key).None? <==> key !in ["python", "javascript", "c", "cpp"]
  {
  }

  lemma {:induction false} ImageBaseSplit(name: string, tag: string)
    requires ':' !in name
    ensures ImageBase(name + ":" + tag) == name
  {
    if name != [] {
      assert (name + ":" + tag)[1..] == name[1..] + ":" + tag;
      ImageBaseSplit(name[1..], tag);
    }
  }

  lemma {:induction false} ImageBaseIsPrefix(image: string)
    ensures IsPrefix(ImageBase(image), image)
  {
    if image != [] && image[0] != ':' {
      ImageBaseIsPrefix(image[1..]);
    }
  }

  /** The recognised name is exactly what `image.split(":")[0]` yields for the language's image. */
  lemma ImageNameIsBase(language: Language)
    ensures ImageBase(Image(language)) == ImageName(language)
  {
    ImageBaseSplit(ImageName(language), ImageTag(language));
  }

  /** The containers created for a language carry an image its own image name starts. */
  lemma OwnImageMatches(language: Language)
    ensures IsPrefix(ImageName(language), Image(language))
  {
    ImageBaseIsPrefix(Image(language));
    ImageNameIsBase(language);
  }

  /**
   * A container created for a language is claimed, on the next discovery, for that
   * same language, except that a C++ container is claimed for C (both use `gcc`).
   */
  lemma RediscoveredAs(language: Language)
    ensures MatchLanguage(Image(language)) == if language == Cpp then Some(C) else Some(language)
  {
    match language
    case Python => RediscoveredPython();
    case JavaScript => RediscoveredJavaScript();
    case C =>
      OwnImageMatches(C);
      GccImagesAreC(Image(C));
    case Cpp =>
      OwnImageMatches(Cpp);
      GccImagesAreC(Image(Cpp));
  }

  lemma RediscoveredPython()
    ensures MatchLanguage(Image(Python)) == Some(Python)
  {
    OwnImageMatches(Python);
    assert FirstMatch(Image(Python), Languages) == 0;
  }

  lemma RediscoveredJavaScript()
    ensures MatchLanguage(Image(JavaScript)) == Some(JavaScript)
  {
    OwnImageMatches(JavaScript);
    assert Image(JavaScript)[0] == 'n';
    FirstCharMismatch(ImageName(Python), Image(JavaScript));
    assert Languages[1..] == [JavaScript, C, Cpp];
    assert FirstMatch(Image(JavaScript), Languages[1..]) == 0;
  }

  /** Any `gcc` image, whatever its tag, is claimed for C. */
  lemma GccImagesAreC(image: string)
    requires IsPrefix("gcc", image)
    ensures MatchLanguage(image) == Some(C)
  {
    assert image[0] == image[..3][0] == 'g';
    FirstCharMismatch(ImageName(Python), image);
    FirstCharMismatch(ImageName(JavaScript), image);
    assert IsPrefix(ImageName(C), image);
    var rest := [JavaScript, C, Cpp];
    assert Languages[1..] == rest;
    assert rest[1..] == [C, Cpp];
    assert FirstMatch(image, [C, Cpp]) == 0;
    assert FirstMatch(image, rest) == 1;
    assert FirstMatch(image, Languages) == 2;
  }

  lemma FirstCharMismatch(p: string, s: string)
    requires p != [] && s != [] && p[0] != s[0]
    ensures !IsPrefix(p, s)
  {
  }

  /**
   * Every command runs the file that deployment writes, `/code/main.<fileExtension>`
   * of its own language, and that file is the archive's single entry.
   */
  lemma CommandRunsDeployedFile(language: Language)
    ensures FileName(language) == "main." + Config(language).fileExtension
    ensures DeployedPath(language) == "/code/main." + Config(language).fileExtension
    ensures var cmd := Config(language).command;
      |cmd| > 0 && Contains(cmd[|cmd| - 1], DeployedPath(language))
  {
    match language
    case Python => PythonCommand();
    case JavaScript => JavaScriptCommand();
    case C => CCommand();
    case Cpp => CppCommand();
  }

  lemma PythonCommand()
    ensures OccursAt(Command(Python)[2], DeployedPath(Python), 0)
  {
    assert DeployedPath(Python) == "/code/main.py";
  }

  lemma JavaScriptCommand()
    ensures OccursAt(Command(JavaScript)[1], DeployedPath(JavaScript), 0)
  {
    assert DeployedPath(JavaScript) == "/code/main.js";
  }

  lemma CCommand()
    ensures OccursAt(Command(C)[2], DeployedPath(C), 4)
  {
    assert DeployedPath(C) == "/code/main.c";
    CompileLine("gcc ", "/code/main.c");
  }

  lemma CppCommand()
    ensures OccursAt(Command(Cpp)[2], DeployedPath(Cpp), 4)
  {
    assert DeployedPath(Cpp) == "/code/main.cpp";
    CompileLine("g++ ", "/code/main.cpp");
  }

  lemma CompileLine(compiler: string, path: string)
    ensures OccursAt(compiler + path + " -o /code/main && /code/main", path, |compiler|)
  {
    var line := compiler + path + " -o /code/main && /code/main";
    assert line[|compiler|..|compiler| + |path|] == path;
  }

  /**
   * `c` precedes `cpp` and both use the `gcc` image, so discovery can claim a
   * container for `c` but never one for `cpp`.
   */
  lemma NeverMatchesCpp(image: string)
    ensures MatchLanguage(image) != Some(Cpp)
  {
    var k := FirstMatch(image, Languages);
    if k >= 3 {
      assert !IsPrefix(ImageName(Languages[2]), image);
      assert ImageName(Languages[3]) == ImageName(Languages[2]);
    }
  }
}
