/**
  The TP24 ValidFunctionName naming rule. It checks method names declared inside a
  class, interface or trait (CheckMethod) and names of free functions
  (ProcessFunction, specified by CheckFunction). Each declaration gets at most one
  error. The host's `PHP_CodeSniffer::isCamelCaps` is not part of this model: every
  check takes it as a parameter.
 */
module ValidFunctionNameSniff {
  import opened Wrappers
  import opened PhpStrings

  /**
    `PHP_CodeSniffer::isCamelCaps($string, $classFormat, $public, $strict)`, left
    uninterpreted.
   */
  type CamelCapsCheck = (string, bool, bool, bool) -> bool

  /** PHP magic method names, without their "__" prefix. */
  const MagicMethods: seq<string> := [
    "construct", "invoke", "destruct", "call", "callStatic", "get", "set", "isset",
    "unset", "sleep", "wakeup", "toString", "set_state", "clone"]

  /** PHP magic function names, without their "__" prefix. */
  const MagicFunctions: seq<string> := ["autoload"]

  /** Method names exempt from the public-underscore and camel-caps rules. */
  const AllowPublic: seq<string> := ["_doRequest", "__doRequest"]

  /** Method names exempt from the protected-underscore and camel-caps rules. */
  const AllowProtected: seq<string> :=
    ["init", "preInsert", "postInsert", "preUpdate", "postUpdate", "preSave", "postSave"]

  /** The kinds of error a method declaration can get. */
  datatype MethodError =
    | MagicMethodName        // only PHP magic methods may start with "__"
    | PublicUnderscore       // a public method must not start with "_"
    | ProtectedNoUnderscore  // a protected method must start with "_"
    | PrivateNoUnderscore    // a private method must start with "_"
    | MethodNotCamelCaps     // not in camel caps format

  /** The kinds of error a function declaration can get. */
  datatype FunctionError =
    | MagicFunctionName      // only PHP magic functions may start with "__"
    | PackageUnderscore      // a package-prefixed name must not start with "_"
    | PackageNotCapital      // a package-prefixed name must start with a capital
    | Incomplete             // the part after the last "_" is empty or blank
    | InvalidName(suggestion: string)  // invalid; consider `suggestion` instead

  /** Every scope other than "private" and "protected" counts as public. */
  predicate IsPublicScope(scope: string) {
    scope != "private" && scope != "protected"
  }

  // ---------------------------------------------------------------------------
  // Methods
  // ---------------------------------------------------------------------------

  /**
    processTokenWithinScope: the error, if any, for method `methodName` of class
    `className` declared with visibility `scope`. The guards run in order and the
    first one that applies decides.
   */
  function CheckMethod(methodName: string, className: string, scope: string,
                       isCamelCaps: CamelCapsCheck): (r: Option<MethodError>)
    ensures r == FirstMatch(MethodGuards, methodName, className, scope, isCamelCaps)
  {
    if StartsWith(methodName, "__") then
      var magicPart := methodName[2..];
      if magicPart !in MagicMethods && methodName !in AllowPublic then Some(MagicMethodName)
      else None
    else if methodName == className then None
    else if methodName == "_" + className then None
    else
      var isPublic := IsPublicScope(scope);
      var isProtected := scope == "protected";
      var isPrivate := scope == "private";
      if isPublic && FirstChar(methodName) == "_" && methodName !in AllowPublic then
        Some(PublicUnderscore)
      else if isProtected && FirstChar(methodName) != "_" && methodName !in AllowProtected then
        Some(ProtectedNoUnderscore)
      else if isPrivate && FirstChar(methodName) != "_" then
        Some(PrivateNoUnderscore)
      else if !isCamelCaps(methodName, false, isPublic, false)
              && methodName !in AllowPublic && methodName !in AllowProtected then
        Some(MethodNotCamelCaps)
      else None
  }

  /** The method rules as an ordered table of independent guards. */
  datatype MethodGuard =
    | MagicPrefix | Php4Constructor | Php4Destructor
    | PublicPrefix | ProtectedPrefix | PrivatePrefix | CamelCaps

  const MethodGuards: seq<MethodGuard> := [
    MagicPrefix, Php4Constructor, Php4Destructor,
    PublicPrefix, ProtectedPrefix, PrivatePrefix, CamelCaps]

  /** Whether guard g applies to the declaration, and so ends the check. */
  predicate Applies(g: MethodGuard, methodName: string, className: string, scope: string,
                    isCamelCaps: CamelCapsCheck)
  {
    match g
    case MagicPrefix => StartsWith(methodName, "__")
    case Php4Constructor => methodName == className
    case Php4Destructor => methodName == "_" + className
    case PublicPrefix =>
      IsPublicScope(scope) && FirstChar(methodName) == "_" && methodName !in AllowPublic
    case ProtectedPrefix =>
      scope == "protected" && FirstChar(methodName) != "_" && methodName !in AllowProtected
    case PrivatePrefix => scope == "private" && FirstChar(methodName) != "_"
    case CamelCaps =>
      !isCamelCaps(methodName, false, IsPublicScope(scope), false)
      && methodName !in AllowPublic && methodName !in AllowProtected
  }

  /** What an applying guard reports. */
  function Outcome(g: MethodGuard, methodName: string): Option<MethodError>
    requires g.MagicPrefix? ==> |methodName| >= 2
  {
    match g
    case MagicPrefix =>
      if methodName[2..] in MagicMethods || methodName in AllowPublic then None
      else Some(MagicMethodName)
    case Php4Constructor => None
    case Php4Destructor => None
    case PublicPrefix => Some(PublicUnderscore)
    case ProtectedPrefix => Some(ProtectedNoUnderscore)
    case PrivatePrefix => Some(PrivateNoUnderscore)
    case CamelCaps => Some(MethodNotCamelCaps)
  }

  /** The outcome of the first guard of gs that applies; no error if none does. */
  function FirstMatch(gs: seq<MethodGuard>, methodName: string, className: string,
                      scope: string, isCamelCaps: CamelCapsCheck): Option<MethodError>
    decreases |gs|
  {
    if |gs| == 0 then None
    else if Applies(gs[0], methodName, className, scope, isCamelCaps) then
      Outcome(gs[0], methodName)
    else FirstMatch(gs[1..], methodName, className, scope, isCamelCaps)
  }

  // ---------------------------------------------------------------------------
  // Functions
  // ---------------------------------------------------------------------------

  /** A function name split into its package part and its camel caps part. */
  datatype NameParts = NameParts(packagePart: string, camelCapsPart: string)

  /**
    The split of processTokenOutsideScope: at the last underscore, with the leading
    underscores of the package part dropped (SplitFunctionNameMeaning states it).
   */
  function SplitFunctionName(functionName: string): (parts: NameParts)
    ensures parts.packagePart == "" || parts.packagePart[0] != '_'
  {
    match Strrpos(functionName, '_')
    case None => NameParts("", functionName)
    case Some(pos) => NameParts(LTrim(functionName[..pos], {'_'}), functionName[pos + 1..])
  }

  /**
    Without "_" the package part is empty and the camel caps part is the whole name;
    otherwise the name is some prefix, "_" and the camel caps part, which holds no
    "_", and the package part is that prefix without its leading underscores.
   */
  lemma SplitFunctionNameMeaning(functionName: string)
    ensures '_' !in functionName ==> SplitFunctionName(functionName) == NameParts("", functionName)
    ensures '_' in functionName ==>
      var parts := SplitFunctionName(functionName);
      var n := |functionName| - |parts.camelCapsPart| - 1;
      0 <= n
      && functionName == functionName[..n] + "_" + parts.camelCapsPart
      && parts.packagePart == LTrim(functionName[..n], {'_'})
    ensures '_' !in SplitFunctionName(functionName).camelCapsPart
  {
  }

  /** A package segment passes when its first character equals its upper-case form. */
  predicate SegmentOk(bit: string) {
    FirstChar(bit) == StrToUpper(FirstChar(bit))
  }

  predicate AllSegmentsOk(bits: seq<string>) {
    forall i :: 0 <= i < |bits| ==> SegmentOk(bits[i])
  }

  /** The corrected camel caps part: first character lower-cased. */
  function LowercaseFirst(s: string): (r: string)
    ensures |r| == |s|
    ensures |s| > 0 ==> r[0] == LowerChar(s[0]) && r[1..] == s[1..]
  {
    StrToLower(FirstChar(s)) + DropFirst(s)
  }

  /** A package segment with its first character upper-cased. */
  function CapitaliseFirst(s: string): (r: string)
    ensures |r| == |s|
    ensures |s| > 0 ==> r[0] == UpperChar(s[0]) && r[1..] == s[1..]
  {
    StrToUpper(FirstChar(s)) + DropFirst(s)
  }

  /** The segments with their first characters upper-cased. */
  function CapitalisedSegments(bits: seq<string>): (caps: seq<string>)
    ensures |caps| == |bits|
    ensures forall i :: 0 <= i < |bits| ==> caps[i] == CapitaliseFirst(bits[i])
  {
    seq(|bits|, i requires 0 <= i < |bits| => CapitaliseFirst(bits[i]))
  }

  /** Every segment followed by "_", as repeated `.= $segment.'_'` builds it. */
  function Terminated(segments: seq<string>): string
    decreases |segments|
  {
    if |segments| == 0 then "" else segments[0] + "_" + Terminated(segments[1..])
  }

  /** The corrected package part: every segment capitalised and followed by "_". */
  function Rebuilt(bits: seq<string>): string {
    Terminated(CapitalisedSegments(bits))
  }

  /** The suggested name: the package part without trailing "_", then "_", then the camel part. */
  function SuggestedName(newPackagePart: string, newCamelCapsPart: string): string {
    if newPackagePart == "" then newCamelCapsPart
    else RTrim(newPackagePart, {'_'}) + "_" + newCamelCapsPart
  }

  /** The package check: no package part, or every segment starts with a capital. */
  predicate PackageOk(packagePart: string) {
    packagePart == "" || AllSegmentsOk(Explode('_', packagePart))
  }

  /** The corrected camel caps part: lower-cased first character unless the check passed. */
  function NewCamelCapsPart(camelCapsPart: string, camelOk: bool): string {
    if camelOk then camelCapsPart else LowercaseFirst(camelCapsPart)
  }

  /** The corrected package part: rebuilt only when some segment fails. */
  function NewPackagePart(packagePart: string): string {
    if PackageOk(packagePart) then packagePart else Rebuilt(Explode('_', packagePart))
  }

  /** The name that a "consider ... instead" error proposes. */
  function Suggestion(parts: NameParts, camelOk: bool): string {
    SuggestedName(NewPackagePart(parts.packagePart), NewCamelCapsPart(parts.camelCapsPart, camelOk))
  }

  /**
    processTokenOutsideScope without its loops: the error, if any, for the free
    function `functionName`.
   */
  function CheckFunction(functionName: string, isCamelCaps: CamelCapsCheck): Option<FunctionError>
  {
    if StartsWith(functionName, "__") then
      if functionName[2..] in MagicFunctions then None else Some(MagicFunctionName)
    else
      var parts := SplitFunctionName(functionName);
      var packagePart, camelCapsPart := parts.packagePart, parts.camelCapsPart;
      if packagePart != "" && FirstChar(functionName) == "_" then Some(PackageUnderscore)
      else if packagePart != "" && FirstChar(functionName) != StrToUpper(FirstChar(functionName)) then
        Some(PackageNotCapital)
      else if IsBlank(camelCapsPart) then Some(Incomplete)
      else
        var camelOk := isCamelCaps(camelCapsPart, false, true, false);
        if camelOk && PackageOk(packagePart) then None
        else Some(InvalidName(Suggestion(parts, camelOk)))
  }

  /** One more segment appends it and its "_", as `.=` does. */
  lemma {:induction false} TerminatedSnoc(segments: seq<string>, segment: string)
    ensures Terminated(segments + [segment]) == Terminated(segments) + (segment + "_")
    decreases |segments|
  {
    if |segments| == 0 {
      assert segments + [segment] == [segment];
    } else {
      assert (segments + [segment])[1..] == segments[1..] + [segment];
      TerminatedSnoc(segments[1..], segment);
    }
  }

  /**
    The inner loop of the package check: every segment capitalised and followed
    by "_", built by repeated concatenation.
   */
  method RebuildPackagePart(nameBits: seq<string>) returns (newPackagePart: string)
    ensures newPackagePart == Rebuilt(nameBits)
  {
    newPackagePart := "";
    ghost var caps := CapitalisedSegments(nameBits);
    var j := 0;
    while j < |nameBits|
      invariant 0 <= j <= |nameBits|
      invariant newPackagePart == Terminated(caps[..j])
    {
      var bit := nameBits[j];
      TerminatedSnoc(caps[..j], caps[j]);
      assert caps[..j + 1] == caps[..j] + [caps[j]];
      assert caps[j] == StrToUpper(FirstChar(bit)) + DropFirst(bit);
      newPackagePart := newPackagePart + (StrToUpper(FirstChar(bit)) + DropFirst(bit) + "_");
      j := j + 1;
    }
    assert caps[..j] == caps;
  }

  /**
    The package check of processTokenOutsideScope: the segments are scanned until
    one does not start with a capital; then the corrected package part is rebuilt
    and the scan stops.
   */
  method CheckPackagePart(packagePart: string) returns (packageOk: bool, newPackagePart: string)
    ensures packageOk <==> AllSegmentsOk(Explode('_', packagePart))
    ensures newPackagePart == if packageOk then packagePart else Rebuilt(Explode('_', packagePart))
  {
    packageOk := true;
    newPackagePart := packagePart;
    var nameBits := Explode('_', packagePart);
    var i := 0;
    while i < |nameBits|
      invariant 0 <= i <= |nameBits|
      invariant forall k :: 0 <= k < i ==> SegmentOk(nameBits[k])
      invariant packageOk && newPackagePart == packagePart
    {
      var bit := nameBits[i];
      if FirstChar(bit) != StrToUpper(FirstChar(bit)) {
        newPackagePart := RebuildPackagePart(nameBits);
        packageOk := false;
        break;
      }
      i := i + 1;
    }
  }

  /**
    processTokenOutsideScope, step by step: the errors it adds are those of
    CheckFunction, so at most one.
   */
  method ProcessFunction(functionName: string, isCamelCaps: CamelCapsCheck)
    returns (errors: seq<FunctionError>)
    ensures errors == ToList(CheckFunction(functionName, isCamelCaps))
    ensures |errors| <= 1
  {
    errors := [];
    if StartsWith(functionName, "__") {
      var magicPart := functionName[2..];
      if magicPart !in MagicFunctions {
        errors := errors + [MagicFunctionName];
      }
      return;
    }

    var packagePart := "";
    var camelCapsPart := "";
    var underscorePos := Strrpos(functionName, '_');
    if underscorePos.None? {
      camelCapsPart := functionName;
    } else {
      packagePart := functionName[..underscorePos.value];
      camelCapsPart := functionName[underscorePos.value + 1..];
      packagePart := LTrim(packagePart, {'_'});
    }
    assert NameParts(packagePart, camelCapsPart) == SplitFunctionName(functionName);

    if packagePart != "" {
      if FirstChar(functionName) == "_" {
        errors := errors + [PackageUnderscore];
        return;
      }
      if FirstChar(functionName) != StrToUpper(FirstChar(functionName)) {
        errors := errors + [PackageNotCapital];
        return;
      }
    }

    if Trim(camelCapsPart) == "" {
      errors := errors + [Incomplete];
      return;
    }

    var validName := true;
    var newPackagePart := packagePart;
    var newCamelCapsPart := camelCapsPart;

    if !isCamelCaps(camelCapsPart, false, true, false) {
      validName := false;
      newCamelCapsPart := StrToLower(FirstChar(camelCapsPart)) + DropFirst(camelCapsPart);
    }
    ghost var camelOk := validName;
    assert newCamelCapsPart == NewCamelCapsPart(camelCapsPart, camelOk);
    if packagePart != "" {
      var packageOk;
      packageOk, newPackagePart := CheckPackagePart(packagePart);
      if !packageOk {
        validName := false;
      }
    }
    assert newPackagePart == NewPackagePart(packagePart);
    assert validName == (camelOk && PackageOk(packagePart));

    if !validName {
      var newName;
      if newPackagePart == "" {
        newName := newCamelCapsPart;
      } else {
        newName := RTrim(newPackagePart, {'_'}) + "_" + newCamelCapsPart;
      }
      assert newName == Suggestion(NameParts(packagePart, camelCapsPart), camelOk);
      errors := errors + [InvalidName(newName)];
    }
  }
}
