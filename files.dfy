/** Log-file naming in core.py: `validate_string` and the checks and fallback
    of `buildfile`. Opening a file is an opaque predicate `canOpen`; what
    `buildfile` tries to open is recorded, in order, so that "rejected before
    any file is opened" can be stated. */
module Files {
  import opened Py

  /** The product name `buildname`. */
  const BuildName: string := "PingStats"

  /** The fallback log file, `'%sLog.csv' % buildname`. */
  const DefaultLogName: string := BuildName + "Log.csv"

  /** The characters `validate_string` looks for, in the order it looks. */
  const InvalidCharacters: seq<char> := ['*', '\0', '\U{80}']

  /** Whether `validate_string` rejects `text` because of the character `c`:
      `'*'` only as the first character, any other character anywhere. */
  predicate Rejects(text: string, c: char) {
    if c == '*' then |text| > 0 && text[0] == '*' else c in text
  }

  /** The first character of `chars` that makes `text` invalid, scanning
      `chars` in order and stopping at the first hit, as the loop of
      `validate_string` returns early. */
  function FirstBadCharacter(text: string, chars: seq<char>): (r: Option<char>)
    ensures r.Some? ==> r.value in chars && Rejects(text, r.value)
    ensures r.Some? ==> exists k :: 0 <= k < |chars| && chars[k] == r.value &&
                                    (forall j :: 0 <= j < k ==> !Rejects(text, chars[j]))
    ensures r.None? <==> forall c :: c in chars ==> !Rejects(text, c)
  {
    if chars == [] then None
    else if Rejects(text, chars[0]) then Some(chars[0])
    else FirstBadCharacter(text, chars[1..])
  }

  /** `validate_string(text)`: true exactly when `text` neither starts with
      `'*'` nor contains a NUL or a U+0080 anywhere. */
  function ValidateString(text: string): (ok: bool)
    ensures ok <==>
      !(|text| > 0 && text[0] == '*') &&
      (forall k :: 0 <= k < |text| ==> text[k] != '\0' && text[k] != '\U{80}')
  {
    var r := FirstBadCharacter(text, InvalidCharacters);
    assert r.None? <==> !Rejects(text, '*') && !Rejects(text, '\0') && !Rejects(text, '\U{80}') by {
      assert forall c :: c in InvalidCharacters <==> c == '*' || c == '\0' || c == '\U{80}';
    }
    r.None?
  }

  /** A `'*'` after the first character does not change the verdict. */
  lemma InnerStarAllowed(a: string, b: string)
    requires |a| > 0
    ensures ValidateString(a + "*" + b) == ValidateString(a + b)
  {
    var t := a + "*" + b;
    var u := a + b;
    assert t[0] == u[0] == a[0];
    assert forall c :: c != '*' ==> (c in t <==> c in u) by {
      forall c | c != '*' ensures c in t <==> c in u {
        if c in t {
          var k :| 0 <= k < |t| && t[k] == c;
          if k < |a| { assert u[k] == c; } else { assert k > |a| && u[k - 1] == c; }
        }
        if c in u {
          var k :| 0 <= k < |u| && u[k] == c;
          if k < |a| { assert t[k] == c; } else { assert t[k + 1] == c; }
        }
      }
    }
  }

  /** A file `buildfile` may open: `os.path.join(path, name)` or the fallback in
      the working directory. */
  datatype Target = Joined(path: string, name: string) | InWorkingDir(name: string)

  /** What `buildfile` returns (the target whose handle it returns, or the
      exception) and the files it tried to open, in order. */
  datatype Built = Built(result: Result<Target>, attempts: seq<Target>)

  /** `validate_string` on an argument that may be `None`: `None.startswith`
      raises `AttributeError`. */
  function CheckText(text: Option<string>, illegal: string): (r: Outcome)
    ensures r.Pass? <==> text.Some? && ValidateString(text.value)
    ensures text.None? ==> r.Fail? && r.error.AttributeError?
    ensures text.Some? && !ValidateString(text.value) ==> r == Fail(ValueError(illegal))
  {
    match text
    case None => Fail(AttributeError("'NoneType' object has no attribute 'startswith'"))
    case Some(t) => if ValidateString(t) then Pass else Fail(ValueError(illegal))
  }

  /** `buildfile(path, name)`: the path is checked first, then the name; only
      then is `path/name.csv` opened in append mode; if that open fails the
      fallback `PingStatsLog.csv` is opened, and if that fails too the error
      propagates. */
  function BuildFile(path: Option<string>, name: Option<string>, canOpen: Target -> bool): (r: Built)
    ensures CheckText(path, "Illegal path!").Fail? ==>
      r == Built(Err(CheckText(path, "Illegal path!").error), [])
    ensures CheckText(path, "Illegal path!").Pass? && CheckText(name, "Illegal file name!").Fail? ==>
      r == Built(Err(CheckText(name, "Illegal file name!").error), [])
    ensures r.attempts != [] <==>
      path.Some? && name.Some? && ValidateString(path.value) && ValidateString(name.value)
    ensures r.attempts != [] ==> r.attempts[0] == Joined(path.value, name.value + ".csv")
    ensures r.attempts != [] ==> |r.attempts| <= 2 && (|r.attempts| == 2 <==> !canOpen(r.attempts[0]))
    ensures |r.attempts| == 2 ==> r.attempts[1] == InWorkingDir(DefaultLogName)
    ensures r.result.Ok? ==> r.result.value == r.attempts[|r.attempts| - 1] && canOpen(r.result.value)
    ensures r.attempts != [] && r.result.Err? ==> r.result.error == OSError && forall t :: t in r.attempts ==> !canOpen(t)
  {
    match CheckText(path, "Illegal path!")
    case Fail(e) => Built(Err(e), [])
    case Pass =>
      match CheckText(name, "Illegal file name!")
      case Fail(e) => Built(Err(e), [])
      case Pass =>
        var target := Joined(path.value, name.value + ".csv");
        if canOpen(target) then Built(Ok(target), [target])
        else
          var fallback := InWorkingDir(DefaultLogName);
          Built(if canOpen(fallback) then Ok(fallback) else Err(OSError), [target, fallback])
  }

  /** An illegal path, even one with an illegal name and even when every file
      could be opened, is reported as `Illegal path!` and nothing is opened. */
  lemma PathCheckedFirst(path: string, name: Option<string>, canOpen: Target -> bool)
    requires !ValidateString(path)
    ensures BuildFile(Some(path), name, canOpen) == Built(Err(ValueError("Illegal path!")), [])
  {
  }

  /** With legal names, `buildfile` always returns a file it could open when
      either the target or the fallback can be opened, and prefers the target. */
  lemma OpensTargetOrFallback(path: string, name: string, canOpen: Target -> bool)
    requires ValidateString(path) && ValidateString(name)
    ensures canOpen(Joined(path, name + ".csv")) ==>
      BuildFile(Some(path), Some(name), canOpen).result == Ok(Joined(path, name + ".csv"))
    ensures !canOpen(Joined(path, name + ".csv")) && canOpen(InWorkingDir(DefaultLogName)) ==>
      BuildFile(Some(path), Some(name), canOpen).result == Ok(InWorkingDir("PingStatsLog.csv"))
  {
    assert DefaultLogName == "PingStatsLog.csv";
  }
}
