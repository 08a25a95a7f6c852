/**
 * The per-language tables of the backend: the starter files `create_project`
 * gives a new project, the file extension `get_file_extension` picks, and the
 * languages `execute_code` agrees to run.
 */
module Languages {
  import opened Text

  const PythonStarter: string :=
    "# Neural Bridge Project\n\ndef main():\n    print('Hello, World!')\n\nif __name__ == '__main__':\n    main()\n"
  const JavaScriptStarter: string :=
    "// Neural Bridge Project\n\nconsole.log('Hello, World!');\n"
  const TypeScriptStarter: string :=
    "// Neural Bridge Project\n\nconst greeting: string = 'Hello, World!';\nconsole.log(greeting);\n"
  const JavaStarter: string :=
    "// Neural Bridge Project\n\npublic class Main {\n    public static void main(String[] args) {\n        System.out.println(\"Hello, World!\");\n    }\n}\n"
  const CSharpStarter: string :=
    "// Neural Bridge Project\n\nusing System;\n\nclass Program {\n    static void Main() {\n        Console.WriteLine(\"Hello, World!\");\n    }\n}\n"
  const GoStarter: string :=
    "// Neural Bridge Project\n\npackage main\n\nimport \"fmt\"\n\nfunc main() {\n    fmt.Println(\"Hello, World!\")\n}\n"

  /** The `default_files` table of `create_project`: one starter file per known language. */
  const StarterFiles: map<string, map<string, string>> := map[
    "python" := map["main.py" := PythonStarter],
    "javascript" := map["index.js" := JavaScriptStarter],
    "typescript" := map["index.ts" := TypeScriptStarter],
    "java" := map["Main.java" := JavaStarter],
    "csharp" := map["Program.cs" := CSharpStarter],
    "go" := map["main.go" := GoStarter]
  ]

  /** What a language missing from `StarterFiles` starts with. */
  const FallbackFiles: map<string, string> := map["main.txt" := "# Neural Bridge Project\n"]

  /**
   * The files of a new project in `language`: exactly one file, whose name
   * carries the extension `FileExtension` gives that language.
   */
  function DefaultFiles(language: string): (files: map<string, string>)
    ensures |files| == 1
    ensures language !in StarterFiles ==> files == FallbackFiles
    ensures forall name | name in files :: EndsWith(name, FileExtension(language))
  {
    if language in StarterFiles then
      StarterFilesCarryExtension(language);
      StarterFiles[language]
    else
      FallbackFiles
  }

  /** Each starter table entry is one file named with the language's own extension. */
  lemma StarterFilesCarryExtension(language: string)
    requires language in StarterFiles
    ensures language in Extensions
    ensures |StarterFiles[language]| == 1
    ensures forall name | name in StarterFiles[language] :: EndsWith(name, Extensions[language])
  {
    if language == "python" {
      assert StarterFiles[language] == map["main.py" := PythonStarter];
    } else if language == "javascript" {
      assert StarterFiles[language] == map["index.js" := JavaScriptStarter];
    } else if language == "typescript" {
      assert StarterFiles[language] == map["index.ts" := TypeScriptStarter];
    } else if language == "java" {
      assert StarterFiles[language] == map["Main.java" := JavaStarter];
    } else if language == "csharp" {
      assert StarterFiles[language] == map["Program.cs" := CSharpStarter];
    } else {
      assert language == "go";
      assert StarterFiles[language] == map["main.go" := GoStarter];
    }
  }

  /** The `extensions` table of `get_file_extension`. */
  const Extensions: map<string, string> := map[
    "python" := ".py",
    "javascript" := ".js",
    "typescript" := ".ts",
    "java" := ".java",
    "csharp" := ".cs",
    "go" := ".go"
  ]

  const FallbackExtension: string := ".txt"

  /**
   * The extension of a source file in `language`: a dot and at least one
   * more character, and `".txt"` exactly for the languages the table does not know.
   */
  function FileExtension(language: string): (ext: string)
    ensures |ext| >= 2 && ext[0] == '.'
    ensures ext == FallbackExtension <==> language !in Extensions
  {
    if language in Extensions then Extensions[language] else FallbackExtension
  }

  /** The `supported_languages` list of `execute_code`, in its order. */
  const SupportedLanguages: seq<string> := ["python", "javascript", "typescript"]

  /** Python's `language in supported_languages`. */
  predicate IsSupported(language: string) {
    language in SupportedLanguages
  }

  /** The extension of each of the six known languages. */
  lemma KnownExtensions()
    ensures FileExtension("python") == ".py" && FileExtension("javascript") == ".js"
    ensures FileExtension("typescript") == ".ts" && FileExtension("java") == ".java"
    ensures FileExtension("csharp") == ".cs" && FileExtension("go") == ".go"
  {
  }

  /** Both tables know the same six languages. */
  lemma LanguageTablesAgree()
    ensures StarterFiles.Keys == Extensions.Keys
  {
  }

  /** The starter file of each of the six known languages. */
  lemma StarterFileNames()
    ensures DefaultFiles("python") == map["main.py" := PythonStarter]
    ensures DefaultFiles("javascript") == map["index.js" := JavaScriptStarter]
    ensures DefaultFiles("typescript") == map["index.ts" := TypeScriptStarter]
    ensures DefaultFiles("java") == map["Main.java" := JavaStarter]
    ensures DefaultFiles("csharp") == map["Program.cs" := CSharpStarter]
    ensures DefaultFiles("go") == map["main.go" := GoStarter]
  {
    assert StarterFiles["python"] == map["main.py" := PythonStarter];
    assert StarterFiles["javascript"] == map["index.js" := JavaScriptStarter];
    assert StarterFiles["typescript"] == map["index.ts" := TypeScriptStarter];
    assert StarterFiles["java"] == map["Main.java" := JavaStarter];
    assert StarterFiles["csharp"] == map["Program.cs" := CSharpStarter];
    assert StarterFiles["go"] == map["main.go" := GoStarter];
  }

  /**
   * A language `execute_code` runs has a starter file and an extension of its
   * own, so the temporary file never falls back to `".txt"`.
   */
  lemma SupportedLanguagesAreKnown(language: string)
    requires IsSupported(language)
    ensures language in StarterFiles
    ensures FileExtension(language) != FallbackExtension
  {
  }
}
