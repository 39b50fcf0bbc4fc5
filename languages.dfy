/** The editor page's language tables (frontend/src/pages/EditorPage.jsx):
    `languageOptions`, `languageTemplates` and the download `extMap`. */
module Languages {
  import opened JsValues

  /** One entry of `languageOptions`: judge language id, label (`displayName`), editor mode. */
  datatype LanguageOption = LanguageOption(id: int, displayName: string, value: string)

  const Options: seq<LanguageOption> := [
    LanguageOption(54, "C++ (GCC 9.2.0)", "cpp"),
    LanguageOption(62, "Java (OpenJDK 13.0.1)", "java"),
    LanguageOption(71, "Python (3.8.1)", "python"),
    LanguageOption(63, "JavaScript (Node.js 12.14.0)", "javascript")
  ]

  /** `languageOptions[2]`, the language a fresh page starts with. */
  const DefaultLanguage := Options[2]

  /** `languageOptions.find((l) => l.value === v)`: the first option with that
      editor mode, `None` (undefined) when there is none. */
  function FindIn(options: seq<LanguageOption>, v: string): (r: Option<LanguageOption>)
    ensures r.Some? <==> exists i :: 0 <= i < |options| && options[i].value == v
    ensures r.Some? ==> r.value.value == v && r.value in options
    decreases |options|
  {
    if options == [] then None
    else if options[0].value == v then Some(options[0])
    else
      var r := FindIn(options[1..], v);
      assert forall i :: 1 <= i < |options| ==> options[i] == options[1..][i - 1];
      r
  }

  function FindByValue(v: string): Option<LanguageOption> {
    FindIn(Options, v)
  }

  /** The four editor modes of `languageOptions`. */
  predicate IsOptionValue(v: string) {
    v == "cpp" || v == "java" || v == "python" || v == "javascript"
  }

  /** `find` succeeds exactly on the four modes. */
  lemma FindSucceedsIff(v: string)
    ensures FindByValue(v).Some? <==> IsOptionValue(v)
  {
    if IsOptionValue(v) {
      var i := if v == "cpp" then 0 else if v == "java" then 1 else if v == "python" then 2 else 3;
      assert Options[i].value == v;
    } else {
      forall i | 0 <= i < |Options| ensures Options[i].value != v {
      }
    }
  }

  /** Finding an option by its own editor mode gives that option back: no
      two options share a mode. */
  lemma FindOwnValue(lang: LanguageOption)
    requires lang in Options
    ensures FindByValue(lang.value) == Some(lang)
  {
    assert FindByValue(lang.value).Some?;
  }

  /** The entries of `languageTemplates`. */
  const CppTemplate := "#include <iostream>\nusing namespace std;\n\nint main() {\n    cout << \"Hello, World!\" << endl;\n    return 0;\n}"
  const JavaTemplate := "public class Main {\n    public static void main(String[] args) {\n        System.out.println(\"Hello, World!\");\n    }\n}"
  const PythonTemplate := "# Write your Python code here...\nprint(\"Hello, World!\")"
  const JavaScriptTemplate := "// Write your JavaScript code here\nconsole.log(\"Hello, World!\");"

  /** `languageTemplates[v]`: a starter program for each of the four modes. */
  function Template(v: string): (t: Option<string>)
    ensures t.Some? <==> IsOptionValue(v)
    ensures t.Some? ==> |t.value| > |FallbackCode|
  {
    if v == "cpp" then Some(CppTemplate)
    else if v == "java" then Some(JavaTemplate)
    else if v == "python" then Some(PythonTemplate)
    else if v == "javascript" then Some(JavaScriptTemplate)
    else None
  }

  const FallbackCode := "// Write your code here"

  /** `languageTemplates[v] || "// Write your code here"`: every option has a
      template of its own; any other mode gets the fallback. */
  function StarterCode(v: string): (code: string)
    ensures code == FallbackCode <==> !IsOptionValue(v)
    ensures IsOptionValue(v) ==> Template(v).Some? && code == Template(v).value
    ensures code != ""
  {
    Or(Template(v), Some(FallbackCode)).value
  }

  /** `extMap[v] || "txt"`. */
  function Extension(v: string): string {
    if v == "cpp" then "cpp"
    else if v == "java" then "java"
    else if v == "python" then "py"
    else if v == "javascript" then "js"
    else "txt"
  }

  /** The download name `code.<ext>`: a mode of the four options gets its own
      extension, anything else ".txt". */
  function DownloadName(v: string): (name: string)
    ensures |name| > 5 && name[..5] == "code."
    ensures name == "code.txt" <==> !IsOptionValue(v)
  {
    "code." + Extension(v)
  }
}
