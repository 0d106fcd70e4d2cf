/** The plan-generation dashboard of the front end
    (surge/src/components/Dashboard.jsx): file selection, the two upload
    checks in their order, and the transition to the fixed demonstration
    plan. Toast notifications are kept as a log of (title, description,
    status). */
module DashboardComponent {
  import opened Wrappers
  import opened JsText

  /** A selected file, known by its name. */
  datatype FileRef = FileRef(name: string)

  /** The plan object: `translated.orders` and `briefing`. */
  datatype Plan = Plan(orders: string, briefing: string)

  datatype ToastStatus = Info | Success | Warning | Error

  datatype Toast = Toast(title: string, description: string, status: ToastStatus)

  /** Which branch `handleUpload` takes. */
  datatype UploadCheck = MissingInformation | InvalidFileType | Ready

  /** The alternatives of /\.(csv|xlsx|xls|json)$/i, in lower case. */
  const AllowedExtensions: seq<string> := ["csv", "xlsx", "xls", "json"]

  const DemoPlan := Plan(
    "Sample order based on current inventory levels",
    "AI-generated surge plan summary based on your location and inventory data.")

  const MissingInformationToast := Toast(
    "Missing Information",
    "Please enter your hospital location and upload an inventory file before generating a plan.",
    Warning)
  const InvalidFileTypeToast := Toast("Invalid File Type", "Please upload a CSV, Excel, or JSON file.", Error)
  const GeneratingToast := Toast("Generating Plan", "Processing your inventory data...", Info)
  const GeneratedToast := Toast("Plan Generated Successfully", "Your surge plan is ready for review.", ToastStatus.Success)

  function FileSelectedToast(f: FileRef): Toast {
    Toast("File Selected", f.name + " is ready for upload", Info)
  }

  // ---------------------------------------------------------------------------
  // The file-type test

  /** `s` ends with `suffix` (given in lower case), ignoring ASCII case. */
  predicate EndsWithIgnoringCase(s: string, suffix: string) {
    |suffix| <= |s| && LowerAscii(s[|s| - |suffix|..]) == suffix
  }

  /** `name.match(/\.(csv|xlsx|xls|json)$/i)` succeeds. */
  predicate HasAllowedExtension(name: string) {
    || EndsWithIgnoringCase(name, ".csv")
    || EndsWithIgnoringCase(name, ".xlsx")
    || EndsWithIgnoringCase(name, ".xls")
    || EndsWithIgnoringCase(name, ".json")
  }

  function LastIndexOf(s: string, c: char): (r: Option<nat>)
    ensures r.Some? ==> r.value < |s| && s[r.value] == c && c !in s[r.value + 1..]
    ensures r.None? ==> c !in s
  {
    if s == [] then None
    else if s[|s| - 1] == c then Some(|s| - 1)
    else
      var r := LastIndexOf(s[..|s| - 1], c);
      assert r.Some? ==> s[r.value + 1..] == s[..|s| - 1][r.value + 1..] + [s[|s| - 1]];
      assert s == s[..|s| - 1] + [s[|s| - 1]];
      r
  }

  /** The text after the last '.' of a file name, if it has one. */
  function ExtensionOf(name: string): Option<string> {
    match LastIndexOf(name, '.')
    case None => None
    case Some(k) => Some(name[k + 1..])
  }

  lemma LowerAsciiDot(c: char)
    ensures ToLowerAscii(c) == '.' <==> c == '.'
  {
  }

  /** A '.' with no '.' after it is the one `LastIndexOf` finds. */
  lemma {:induction false} LastIndexOfIs(s: string, c: char, p: nat)
    requires p < |s| && s[p] == c && c !in s[p + 1..]
    ensures LastIndexOf(s, c) == Some(p)
  {
    assert p < |s| - 1 ==> s[p + 1..][|s| - 2 - p] == s[|s| - 1];
    if s[|s| - 1] != c {
      var init := s[..|s| - 1];
      var rest := init[p + 1..];
      assert rest == s[p + 1..][..|rest|];
      LastIndexOfIs(init, c, p);
    }
  }

  /** Lower-casing commutes with taking a suffix. */
  lemma LowerAsciiDrop(s: string, k: nat)
    requires k <= |s|
    ensures LowerAscii(s[k..]) == LowerAscii(s)[k..]
  {
  }

  /** Matching one alternative puts the last '.' just before the extension. */
  lemma SuffixGivesExtension(name: string, ext: string)
    requires ext in AllowedExtensions
    requires EndsWithIgnoringCase(name, "." + ext)
    ensures ExtensionOf(name) == Some(name[|name| - |ext|..])
    ensures LowerAscii(name[|name| - |ext|..]) == ext
  {
    var suffix := "." + ext;
    var p := |name| - |suffix|;
    var tail := name[p..];
    var low := LowerAscii(tail);
    assert low == suffix;
    assert low[0] == '.';
    LowerAsciiDot(tail[0]);
    assert name[p] == '.';
    var rest := name[p + 1..];
    assert '.' !in rest by {
      forall m | 0 <= m < |rest| ensures rest[m] != '.' {
        assert rest[m] == tail[m + 1];
        assert low[m + 1] == ext[m];
        assert ext[m] != '.';
        LowerAsciiDot(tail[m + 1]);
      }
    }
    LastIndexOfIs(name, '.', p);
    LowerAsciiDrop(tail, 1);
    assert tail[1..] == rest;
  }

  /** An extension after the last '.' puts a matching suffix at the end. */
  lemma ExtensionGivesSuffix(name: string, ext: string)
    requires ExtensionOf(name).Some? && LowerAscii(ExtensionOf(name).value) == ext
    ensures EndsWithIgnoringCase(name, "." + ext)
  {
    var k := LastIndexOf(name, '.').value;
    var rest := name[k + 1..];
    var tail := name[k..];
    assert |ext| == |rest|;
    assert tail == [name[k]] + rest;
    assert |name| - |"." + ext| == k;
    assert LowerAscii(tail) == "." + ext by {
      assert LowerAscii(tail)[0] == '.';
      LowerAsciiDrop(tail, 1);
      assert tail[1..] == rest;
    }
  }

  /** One alternative of the pattern matches exactly when the text after the
      last '.' is that extension, ignoring case. */
  lemma SuffixIsLastDotExtension(name: string, ext: string)
    requires ext in AllowedExtensions
    ensures EndsWithIgnoringCase(name, "." + ext) <==>
      ExtensionOf(name).Some? && LowerAscii(ExtensionOf(name).value) == ext
  {
    if EndsWithIgnoringCase(name, "." + ext) {
      SuffixGivesExtension(name, ext);
    }
    if ExtensionOf(name).Some? && LowerAscii(ExtensionOf(name).value) == ext {
      ExtensionGivesSuffix(name, ext);
    }
  }

  /** The file-type test, stated on the text after the last '.': a name is
      accepted exactly when it has a '.' and what follows the last one is,
      ignoring case, one of csv, xlsx, xls and json. */
  lemma AllowedExtensionIsLastDotExtension(name: string)
    ensures HasAllowedExtension(name) <==>
      ExtensionOf(name).Some? && LowerAscii(ExtensionOf(name).value) in AllowedExtensions
  {
    assert "." + "csv" == ".csv" && "." + "xlsx" == ".xlsx";
    assert "." + "xls" == ".xls" && "." + "json" == ".json";
    SuffixIsLastDotExtension(name, "csv");
    SuffixIsLastDotExtension(name, "xlsx");
    SuffixIsLastDotExtension(name, "xls");
    SuffixIsLastDotExtension(name, "json");
    if ExtensionOf(name).Some? {
      var low := LowerAscii(ExtensionOf(name).value);
      assert low in AllowedExtensions <==> low == "csv" || low == "xlsx" || low == "xls" || low == "json";
    }
  }

  /** Worked cases: a trailing extension counts, one in the middle does not,
      and case is ignored. */
  lemma ExtensionExamples()
    ensures !HasAllowedExtension("a.csv.txt")
    ensures HasAllowedExtension("A.JSON")
    ensures HasAllowedExtension("stock.Xlsx")
    ensures HasAllowedExtension(".csv")
    ensures !HasAllowedExtension("csv")
  {
    assert LowerAscii(".JSON") == ".json";
    assert LowerAscii(".Xlsx") == ".xlsx";
    assert LowerAscii(".txt")[1] == 't';
    assert LowerAscii("v.txt")[0] == 'v';
  }

  /** The order of `handleUpload`'s checks: missing information first, then the
      file type. */
  function CheckUpload(file: Option<FileRef>, location: string): (r: UploadCheck)
    ensures r == MissingInformation <==> file.None? || location == ""
    ensures r == InvalidFileType <==> file.Some? && location != "" && !HasAllowedExtension(file.value.name)
    ensures r == Ready <==> file.Some? && location != "" && HasAllowedExtension(file.value.name)
  {
    if file.None? || location == "" then MissingInformation
    else if !HasAllowedExtension(file.value.name) then InvalidFileType
    else Ready
  }

  class Dashboard {
    var location: string
    var file: Option<FileRef>
    var plan: Option<Plan>
    var loading: bool
    /** Notifications raised so far, oldest first. */
    var toasts: seq<Toast>

    constructor ()
      ensures location == "" && file == None && plan == None && !loading && toasts == []
    {
      location := "";
      file := None;
      plan := None;
      loading := false;
      toasts := [];
    }

    /** The location input's change handler. */
    method EditLocation(value: string)
      modifies this`location
      ensures location == value
    {
      location := value;
    }

    /** `handleFileChange`, given the first selected file if any. */
    method HandleFileChange(selected: Option<FileRef>)
      modifies this`file, this`toasts
      ensures selected.None? ==> file == old(file) && toasts == old(toasts)
      ensures selected.Some? ==> file == selected && toasts == old(toasts) + [FileSelectedToast(selected.value)]
    {
      if selected.Some? {
        file := selected;
        toasts := toasts + [FileSelectedToast(selected.value)];
      }
    }

    /** `handleUpload`: the two checks with early returns, then the loading
        window around the demonstration plan. */
    method HandleUpload()
      modifies this`plan, this`loading, this`toasts
      ensures CheckUpload(file, location) == MissingInformation ==>
        plan == old(plan) && loading == old(loading) && toasts == old(toasts) + [MissingInformationToast]
      ensures CheckUpload(file, location) == InvalidFileType ==>
        plan == old(plan) && loading == old(loading) && toasts == old(toasts) + [InvalidFileTypeToast]
      ensures CheckUpload(file, location) == Ready ==>
        plan == Some(DemoPlan) && !loading && toasts == old(toasts) + [GeneratingToast, GeneratedToast]
    {
      if file.None? || location == "" {
        toasts := toasts + [MissingInformationToast];
        return;
      }
      if file.Some? && !HasAllowedExtension(file.value.name) {
        toasts := toasts + [InvalidFileTypeToast];
        return;
      }
      loading := true;
      toasts := toasts + [GeneratingToast];
      plan := Some(DemoPlan);
      toasts := toasts + [GeneratedToast];
      loading := false;
    }
  }
}
