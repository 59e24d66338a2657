/**
  What the function-name check promises: how a name splits into its package and
  camel caps parts, which single error, if any, it gets, and that the name it
  suggests as a correction passes the check itself.
 */
module FunctionRules {
  import opened Wrappers
  import opened PhpStrings
  import opened ValidFunctionNameSniff

  // ---------------------------------------------------------------------------
  // The split at the last underscore
  // ---------------------------------------------------------------------------

  /** The split is unique: for x + "_" + y with no "_" in y, y is the camel caps part. */
  lemma SplitAtLastUnderscore(x: string, y: string)
    requires '_' !in y
    ensures SplitFunctionName(x + "_" + y) == NameParts(LTrim(x, {'_'}), y)
  {
    var s := x + "_" + y;
    assert s[|x|] == '_';
    var pos := Strrpos(s, '_');
    assert pos.Some?;
    assert s[..|x|] == x && s[|x| + 1..] == y;
  }

  /** A package part is a prefix of the name unless the name starts with "_". */
  lemma PackageStartsName(functionName: string)
    requires SplitFunctionName(functionName).packagePart != ""
    requires FirstChar(functionName) != "_"
    ensures SplitFunctionName(functionName).packagePart[0] == functionName[0]
  {
  }

  /** A name one of whose first two characters is not "_" does not start with "__". */
  lemma NoMagicPrefix(s: string)
    requires |s| > 0 && (s[0] != '_' || (|s| > 1 && s[1] != '_'))
    ensures !StartsWith(s, "__")
  {
  }

  /** ltrim leaves a string alone that does not start with a trimmed character. */
  lemma LTrimUntouched(s: string, chars: set<char>)
    requires s == [] || s[0] !in chars
    ensures LTrim(s, chars) == s
  {
  }

  // ---------------------------------------------------------------------------
  // The package capitalisation check, character by character
  // ---------------------------------------------------------------------------

  /**
    The reference meaning of the package check: every character that starts a word
    (the first one when `atStart`, and every one right after a "_") is no
    lower-case letter.
   */
  predicate WordStartsCapitalised(p: string, atStart: bool) {
    forall i :: 0 <= i < |p| && StartsWord(p, i, atStart) ==> !IsLowerAscii(p[i])
  }

  /** Position i of p starts a word. */
  predicate StartsWord(p: string, i: nat, atStart: bool)
    requires i < |p|
  {
    if i == 0 then atStart else p[i - 1] == '_'
  }

  /** A segment passes `$bit{0} === strtoupper($bit{0})` iff it is empty or starts with no lower-case letter. */
  lemma SegmentOkMeaning(bit: string)
    ensures SegmentOk(bit) <==> |bit| == 0 || !IsLowerAscii(bit[0])
  {
  }

  lemma WordStartsCons(c: char, t: string, atStart: bool)
    ensures WordStartsCapitalised([c] + t, atStart)
            <==> (atStart ==> !IsLowerAscii(c)) && WordStartsCapitalised(t, c == '_')
  {
    var s := [c] + t;
    if WordStartsCapitalised(s, atStart) {
      forall i | 0 <= i < |t| && StartsWord(t, i, c == '_')
        ensures !IsLowerAscii(t[i])
      {
        assert s[i + 1] == t[i] && StartsWord(s, i + 1, atStart);
      }
      assert StartsWord(s, 0, atStart) == atStart;
    }
    if (atStart ==> !IsLowerAscii(c)) && WordStartsCapitalised(t, c == '_') {
      forall i | 0 <= i < |s| && StartsWord(s, i, atStart)
        ensures !IsLowerAscii(s[i])
      {
        if i > 0 {
          assert s[i] == t[i - 1] && StartsWord(t, i - 1, c == '_');
        }
      }
    }
  }

  /** The segment-by-segment check of `explode` agrees with the character-wise reading. */
  lemma {:induction false} SegmentsAgainstWordStarts(s: string, atStart: bool)
    ensures WordStartsCapitalised(s, atStart)
            <==> (atStart ==> SegmentOk(Explode('_', s)[0])) && AllSegmentsOk(Explode('_', s)[1..])
    decreases |s|
  {
    var parts := Explode('_', s);
    if |s| == 0 {
      SegmentOkMeaning("");
    } else {
      var c, t := s[0], s[1..];
      assert s == [c] + t;
      WordStartsCons(c, t, atStart);
      SegmentsAgainstWordStarts(t, c == '_');
      var rest := Explode('_', t);
      SegmentOkMeaning(rest[0]);
      if c == '_' {
        assert parts == [""] + rest;
        SegmentOkMeaning("");
        assert parts[1..] == rest;
        assert AllSegmentsOk(rest) <==> SegmentOk(rest[0]) && AllSegmentsOk(rest[1..]) by {
          assert forall i :: 1 <= i < |rest| ==> rest[i] == rest[1..][i - 1];
        }
      } else {
        assert parts == [[c] + rest[0]] + rest[1..];
        SegmentOkMeaning(parts[0]);
        assert parts[1..] == rest[1..];
      }
    }
  }

  /** The package check passes exactly when every word of the package part starts capitalised. */
  lemma PackageCheckMeaning(p: string)
    ensures AllSegmentsOk(Explode('_', p)) <==> WordStartsCapitalised(p, true)
  {
    var parts := Explode('_', p);
    SegmentsAgainstWordStarts(p, true);
    assert AllSegmentsOk(parts) <==> SegmentOk(parts[0]) && AllSegmentsOk(parts[1..]) by {
      assert forall i :: 1 <= i < |parts| ==> parts[i] == parts[1..][i - 1];
    }
  }

  lemma WordStartsPrefix(p: string, k: nat, atStart: bool)
    requires WordStartsCapitalised(p, atStart) && k <= |p|
    ensures WordStartsCapitalised(p[..k], atStart)
  {
  }

  // ---------------------------------------------------------------------------
  // The corrected package part
  // ---------------------------------------------------------------------------

  lemma {:induction false} ExplodeTerminated(segments: seq<string>)
    requires forall i :: 0 <= i < |segments| ==> '_' !in segments[i]
    ensures Explode('_', Terminated(segments)) == segments + [""]
    decreases |segments|
  {
    if |segments| > 0 {
      ExplodeTerminated(segments[1..]);
      ExplodeAtSeparator('_', segments[0], Terminated(segments[1..]));
      assert segments[0] + "_" + Terminated(segments[1..])
             == segments[0] + ['_'] + Terminated(segments[1..]);
      assert [segments[0]] + (segments[1..] + [""]) == segments + [""];
    }
  }

  lemma CapitaliseFirstNoUnderscore(bit: string)
    requires '_' !in bit
    ensures '_' !in CapitaliseFirst(bit)
  {
  }

  /**
    The rebuilt package part holds the same segments, each with its first character
    upper-cased, and ends with "_" (the empty last piece).
   */
  lemma RebuiltSegments(bits: seq<string>)
    requires forall i :: 0 <= i < |bits| ==> '_' !in bits[i]
    ensures Explode('_', Rebuilt(bits)) == CapitalisedSegments(bits) + [""]
    ensures AllSegmentsOk(CapitalisedSegments(bits))
  {
    var caps := CapitalisedSegments(bits);
    forall i | 0 <= i < |caps| ensures '_' !in caps[i] && SegmentOk(caps[i]) {
      CapitaliseFirstNoUnderscore(bits[i]);
      SegmentOkMeaning(caps[i]);
    }
    ExplodeTerminated(caps);
  }

  /** Every word of the rebuilt package part starts capitalised. */
  lemma RebuiltWordStarts(bits: seq<string>)
    requires forall i :: 0 <= i < |bits| ==> '_' !in bits[i]
    ensures WordStartsCapitalised(Rebuilt(bits), true)
  {
    var caps := CapitalisedSegments(bits);
    RebuiltSegments(bits);
    SegmentOkMeaning("");
    assert AllSegmentsOk(caps + [""]) by {
      forall i | 0 <= i < |caps + [""]| ensures SegmentOk((caps + [""])[i]) {
        if i < |caps| { assert (caps + [""])[i] == caps[i]; }
      }
    }
    PackageCheckMeaning(Rebuilt(bits));
  }

  /** The rebuilt package part starts with the first segment's first character, upper-cased. */
  lemma RebuiltFirst(bits: seq<string>)
    requires |bits| > 0 && |bits[0]| > 0
    ensures |Rebuilt(bits)| > 0 && Rebuilt(bits)[0] == UpperChar(bits[0][0])
  {
  }

  // ---------------------------------------------------------------------------
  // Which error a function name gets
  // ---------------------------------------------------------------------------

  /** A "__" name passes exactly when its remainder is a magic function; the split never runs. */
  lemma MagicFunctionRule(functionName: string, isCamelCaps: CamelCapsCheck)
    requires StartsWith(functionName, "__")
    ensures CheckFunction(functionName, isCamelCaps) == None <==> functionName[2..] in MagicFunctions
    ensures CheckFunction(functionName, isCamelCaps) in {None, Some(MagicFunctionName)}
  {
  }

  lemma MagicFunctionExamples(isCamelCaps: CamelCapsCheck)
    ensures CheckFunction("__autoload", isCamelCaps) == None
    ensures CheckFunction("__unknownMagic", isCamelCaps) == Some(MagicFunctionName)
  {
  }

  /** With a package part, a leading "_" gets the "only private methods" error. */
  lemma PackageUnderscoreRule(functionName: string, isCamelCaps: CamelCapsCheck)
    requires !StartsWith(functionName, "__")
    ensures CheckFunction(functionName, isCamelCaps) == Some(PackageUnderscore)
            <==> SplitFunctionName(functionName).packagePart != "" && functionName[0] == '_'
  {
  }

  /**
    With a package part, a name whose first character is a lower-case letter gets
    the capital-letter error (a digit, for one, is its own upper-case form and passes).
   */
  lemma PackageNotCapitalRule(functionName: string, isCamelCaps: CamelCapsCheck)
    requires !StartsWith(functionName, "__")
    ensures CheckFunction(functionName, isCamelCaps) == Some(PackageNotCapital)
            <==> SplitFunctionName(functionName).packagePart != ""
                 && IsLowerAscii(functionName[0])
  {
  }

  /** The first character rules that apply to a name with a package part. */
  predicate StartsAsPackageDemands(functionName: string) {
    SplitFunctionName(functionName).packagePart != "" ==>
      functionName[0] != '_' && !IsLowerAscii(functionName[0])
  }

  /** A blank camel caps part, once the package rules passed, gets the "incomplete" error. */
  lemma IncompleteRule(functionName: string, isCamelCaps: CamelCapsCheck)
    requires !StartsWith(functionName, "__")
    ensures CheckFunction(functionName, isCamelCaps) == Some(Incomplete)
            <==> StartsAsPackageDemands(functionName)
                 && IsBlank(SplitFunctionName(functionName).camelCapsPart)
  {
  }

  /**
    A name that is not magic passes exactly when the package rules pass, the camel
    caps part is not blank and passes the camel caps check, and every word of the
    package part starts capitalised.
   */
  lemma FunctionAccepted(functionName: string, isCamelCaps: CamelCapsCheck)
    requires !StartsWith(functionName, "__")
    ensures CheckFunction(functionName, isCamelCaps) == None
            <==> var parts := SplitFunctionName(functionName);
                 && StartsAsPackageDemands(functionName)
                 && !IsBlank(parts.camelCapsPart)
                 && isCamelCaps(parts.camelCapsPart, false, true, false)
                 && WordStartsCapitalised(parts.packagePart, true)
  {
    var parts := SplitFunctionName(functionName);
    PackageCheckMeaning(parts.packagePart);
    PackageNotCapitalRule(functionName, isCamelCaps);
  }

  /**
    A name without package part whose camel caps part is not blank passes when the
    camel caps check accepts it, and otherwise gets its camel caps part, first
    character lower-cased, as the suggestion.
   */
  lemma NoPackageRule(functionName: string, isCamelCaps: CamelCapsCheck)
    requires !StartsWith(functionName, "__")
    requires SplitFunctionName(functionName).packagePart == ""
    requires !IsBlank(SplitFunctionName(functionName).camelCapsPart)
    ensures var cc := SplitFunctionName(functionName).camelCapsPart;
            CheckFunction(functionName, isCamelCaps)
            == if isCamelCaps(cc, false, true, false) then None else Some(InvalidName(LowercaseFirst(cc)))
  {
  }

  // ---------------------------------------------------------------------------
  // The suggested name
  // ---------------------------------------------------------------------------

  /**
    The corrected camel caps part differs from the original at most in its first
    character, lower-cased when the camel caps check failed; so it stays free of
    "_" and not blank.
   */
  lemma CorrectedCamel(camelCapsPart: string, camelOk: bool)
    requires '_' !in camelCapsPart && !IsBlank(camelCapsPart)
    ensures var c := NewCamelCapsPart(camelCapsPart, camelOk);
            && |c| == |camelCapsPart| > 0
            && c[1..] == camelCapsPart[1..]
            && c[0] == (if camelOk then camelCapsPart[0] else LowerChar(camelCapsPart[0]))
            && '_' !in c && !IsBlank(c)
  {
  }

  /**
    A package part that starts with neither "_" nor a lower-case letter keeps its
    first character when corrected, and every word of the corrected part starts
    capitalised.
   */
  lemma CorrectedPackage(packagePart: string)
    requires packagePart != "" && packagePart[0] != '_' && !IsLowerAscii(packagePart[0])
    ensures var p := NewPackagePart(packagePart);
            |p| > 0 && p[0] == packagePart[0] && WordStartsCapitalised(p, true)
  {
    if PackageOk(packagePart) {
      PackageCheckMeaning(packagePart);
    } else {
      var bits := Explode('_', packagePart);
      ExplodeFirstPiece('_', packagePart);
      RebuiltFirst(bits);
      RebuiltWordStarts(bits);
      assert UpperChar(packagePart[0]) == packagePart[0];
    }
  }

  /**
    How the suggested name splits again: its camel caps part is the corrected one;
    it has a package part exactly when the original had one, and that is then the
    corrected package part without its trailing underscores, starting like the
    original, with every word capitalised.
   */
  lemma SuggestionSplit(parts: NameParts, camelOk: bool)
    requires '_' !in parts.camelCapsPart && !IsBlank(parts.camelCapsPart)
    requires parts.packagePart != "" ==>
               parts.packagePart[0] != '_' && !IsLowerAscii(parts.packagePart[0])
    ensures var s := Suggestion(parts, camelOk);
            var sp := SplitFunctionName(s);
            && sp.camelCapsPart == NewCamelCapsPart(parts.camelCapsPart, camelOk)
            && (sp.packagePart == "" <==> parts.packagePart == "")
            && (parts.packagePart != "" ==>
                  sp.packagePart == RTrim(NewPackagePart(parts.packagePart), {'_'})
                  && s[0] == sp.packagePart[0] == parts.packagePart[0])
            && WordStartsCapitalised(sp.packagePart, true)
  {
    var pkg, cc := parts.packagePart, parts.camelCapsPart;
    var newCamel := NewCamelCapsPart(cc, camelOk);
    var s := Suggestion(parts, camelOk);
    CorrectedCamel(cc, camelOk);
    if pkg == "" {
      SplitFunctionNameMeaning(s);
    } else {
      var newPkg := NewPackagePart(pkg);
      CorrectedPackage(pkg);
      var p := RTrim(newPkg, {'_'});
      assert |p| > 0 && p[0] == newPkg[0] by {
        assert newPkg[0] !in {'_'};
      }
      WordStartsPrefix(newPkg, |p|, true);
      assert s == p + "_" + newCamel;
      SplitAtLastUnderscore(p, newCamel);
      LTrimUntouched(p, {'_'});
      assert s[0] == p[0];
    }
  }

  /**
    The suggestion does not start with "__", and when it has a package part it
    starts with neither "_" nor a lower-case letter.
   */
  lemma SuggestionStart(parts: NameParts, camelOk: bool)
    requires '_' !in parts.camelCapsPart && !IsBlank(parts.camelCapsPart)
    requires parts.packagePart != "" ==>
               parts.packagePart[0] != '_' && !IsLowerAscii(parts.packagePart[0])
    ensures var s := Suggestion(parts, camelOk);
            !StartsWith(s, "__") && StartsAsPackageDemands(s)
  {
    var s := Suggestion(parts, camelOk);
    var newCamel := NewCamelCapsPart(parts.camelCapsPart, camelOk);
    SuggestionSplit(parts, camelOk);
    CorrectedCamel(parts.camelCapsPart, camelOk);
    assert |s| > 0 && s[0] != '_' by {
      if parts.packagePart == "" {
        assert s == newCamel && s[0] in newCamel;
      }
    }
    NoMagicPrefix(s);
  }

  /**
    Checking a suggestion built from parts that meet SuggestionSplit's demands
    reports nothing, once the camel caps check accepts the corrected camel caps part.
   */
  lemma SuggestionPasses(parts: NameParts, camelOk: bool, isCamelCaps: CamelCapsCheck)
    requires '_' !in parts.camelCapsPart && !IsBlank(parts.camelCapsPart)
    requires parts.packagePart != "" ==>
               parts.packagePart[0] != '_' && !IsLowerAscii(parts.packagePart[0])
    requires isCamelCaps(NewCamelCapsPart(parts.camelCapsPart, camelOk), false, true, false)
    ensures CheckFunction(Suggestion(parts, camelOk), isCamelCaps) == None
  {
    SuggestionSplit(parts, camelOk);
    SuggestionStart(parts, camelOk);
    CorrectedCamel(parts.camelCapsPart, camelOk);
    FunctionAccepted(Suggestion(parts, camelOk), isCamelCaps);
  }

  /**
    When a name gets the "consider ... instead" error, the suggestion is built
    from the name's own split, with the camel caps part corrected exactly when the
    camel caps check rejected it; the split then meets SuggestionSplit's demands.
   */
  lemma InvalidNameSuggestion(functionName: string, suggestion: string, isCamelCaps: CamelCapsCheck)
    requires CheckFunction(functionName, isCamelCaps) == Some(InvalidName(suggestion))
    ensures var parts := SplitFunctionName(functionName);
            && suggestion == Suggestion(parts, isCamelCaps(parts.camelCapsPart, false, true, false))
            && !(isCamelCaps(parts.camelCapsPart, false, true, false) && PackageOk(parts.packagePart))
            && '_' !in parts.camelCapsPart && !IsBlank(parts.camelCapsPart)
            && (parts.packagePart != "" ==>
                  parts.packagePart[0] == functionName[0]
                  && functionName[0] != '_' && !IsLowerAscii(functionName[0]))
  {
    var parts := SplitFunctionName(functionName);
    var camelOk := isCamelCaps(parts.camelCapsPart, false, true, false);
    assert !StartsWith(functionName, "__");
    assert parts.packagePart != "" ==> FirstChar(functionName) != "_"
                                       && FirstChar(functionName) == StrToUpper(FirstChar(functionName));
    assert !IsBlank(parts.camelCapsPart);
    assert !(camelOk && PackageOk(parts.packagePart));
    assert suggestion == Suggestion(parts, camelOk);
    SplitFunctionNameMeaning(functionName);
    if parts.packagePart != "" {
      SegmentOkMeaning(functionName);
      PackageStartsName(functionName);
    }
  }

  /**
    The suggestion is itself a valid name: once the camel caps check accepts the
    suggestion's camel caps part, checking the suggested name reports nothing.
   */
  lemma SuggestionAccepted(functionName: string, suggestion: string, isCamelCaps: CamelCapsCheck)
    requires CheckFunction(functionName, isCamelCaps) == Some(InvalidName(suggestion))
    requires isCamelCaps(SplitFunctionName(suggestion).camelCapsPart, false, true, false)
    ensures CheckFunction(suggestion, isCamelCaps) == None
  {
    var parts := SplitFunctionName(functionName);
    var camelOk := isCamelCaps(parts.camelCapsPart, false, true, false);
    InvalidNameSuggestion(functionName, suggestion, isCamelCaps);
    SuggestionSplit(parts, camelOk);
    SuggestionPasses(parts, camelOk, isCamelCaps);
  }

  // ---------------------------------------------------------------------------
  // Examples
  // ---------------------------------------------------------------------------

  /** `x_y`, for x not starting with "_" and y without "_", splits into x and y. */
  lemma SplitPackaged(x: string, y: string)
    requires |x| > 0 && x[0] != '_' && '_' !in y
    ensures SplitFunctionName(x + "_" + y) == NameParts(x, y)
    ensures (x + "_" + y)[0] == x[0] && !StartsWith(x + "_" + y, "__")
  {
    SplitAtLastUnderscore(x, y);
    LTrimUntouched(x, {'_'});
    NoMagicPrefix(x + "_" + y);
  }

  /** `_x_y`, for x not starting with "_" and y without "_", splits into x and y. */
  lemma SplitUnderscored(x: string, y: string)
    requires |x| > 0 && x[0] != '_' && '_' !in y
    ensures SplitFunctionName("_" + x + "_" + y) == NameParts(x, y)
    ensures ("_" + x + "_" + y)[0] == '_' && !StartsWith("_" + x + "_" + y, "__")
  {
    SplitAtLastUnderscore("_" + x, y);
    assert ("_" + x)[1..] == x;
    LTrimUntouched(x, {'_'});
    assert ("_" + x + "_" + y)[1] == x[0];
    NoMagicPrefix("_" + x + "_" + y);
  }

  /** `_y`, for y without "_", has no package part. */
  lemma SplitLeadingUnderscore(y: string)
    requires |y| > 0 && '_' !in y
    ensures SplitFunctionName("_" + y) == NameParts("", y)
    ensures !StartsWith("_" + y, "__")
  {
    assert "_" + y == "" + "_" + y;
    SplitAtLastUnderscore("", y);
    assert ("_" + y)[1] == y[0];
    NoMagicPrefix("_" + y);
  }

  /**
    A name whose package part starts with a lower-case letter gets the
    capital-letter error, never a suggestion: `foo_BarBaz` is one.
   */
  lemma LowerCasePackageRule(x: string, y: string, isCamelCaps: CamelCapsCheck)
    requires |x| > 0 && IsLowerAscii(x[0]) && '_' !in y
    ensures CheckFunction(x + "_" + y, isCamelCaps) == Some(PackageNotCapital)
  {
    SplitPackaged(x, y);
    PackageNotCapitalRule(x + "_" + y, isCamelCaps);
  }

  /**
    A single leading underscore does not make a package part: `_leadingUnderscore`
    is judged by its camel caps part alone.
   */
  lemma LeadingUnderscoreRule(y: string, isCamelCaps: CamelCapsCheck)
    requires '_' !in y && !IsBlank(y)
    ensures SplitFunctionName("_" + y) == NameParts("", y)
    ensures CheckFunction("_" + y, isCamelCaps)
            == if isCamelCaps(y, false, true, false) then None else Some(InvalidName(LowercaseFirst(y)))
  {
    SplitLeadingUnderscore(y);
    NoPackageRule("_" + y, isCamelCaps);
  }

  /** A package-prefixed name that starts with "_" gets the "only private methods" error: `_Foo_bar` is one. */
  lemma UnderscorePackageRule(x: string, y: string, isCamelCaps: CamelCapsCheck)
    requires |x| > 0 && x[0] != '_' && '_' !in y
    ensures CheckFunction("_" + x + "_" + y, isCamelCaps) == Some(PackageUnderscore)
  {
    SplitUnderscored(x, y);
    PackageUnderscoreRule("_" + x + "_" + y, isCamelCaps);
  }

  /** `Foo_bar` explodes into `Foo` and `bar`. */
  lemma FooBarSegments(pkg: string)
    requires pkg == "Foo_bar"
    ensures Explode('_', pkg) == ["Foo", "bar"]
  {
    ExplodeNoSeparator('_', "Foo");
    ExplodeNoSeparator('_', "bar");
    ExplodeAtSeparator('_', "Foo", "bar");
    assert pkg == "Foo" + ['_'] + "bar";
  }

  /** Capitalising `Foo` and `bar` changes only the second. */
  lemma FooBarCapitalised(bits: seq<string>)
    requires bits == ["Foo", "bar"]
    ensures !SegmentOk(bits[1])
    ensures CapitalisedSegments(bits) == ["Foo", "Bar"]
  {
    assert StrToUpper("b") == "B";
    assert CapitaliseFirst("Foo") == "Foo" by { assert StrToUpper("F") == "F"; }
    assert CapitaliseFirst("bar") == "Bar";
  }

  /** The package part `Foo_bar` is corrected to `Foo_Bar`: only the failing segment changes. */
  lemma RebuiltPackageExample(pkg: string)
    requires pkg == "Foo_bar"
    ensures !PackageOk(pkg)
    ensures NewPackagePart(pkg) == "Foo_Bar_"
    ensures Suggestion(NameParts(pkg, "Baz"), true) == "Foo_Bar_Baz"
  {
    var bits := Explode('_', pkg);
    FooBarSegments(pkg);
    FooBarCapitalised(bits);
    FooBarTerminated(CapitalisedSegments(bits));
  }

  /** `Foo` and `Bar`, each followed by "_", give `Foo_Bar_`, which rtrims to `Foo_Bar`. */
  lemma FooBarTerminated(caps: seq<string>)
    requires caps == ["Foo", "Bar"]
    ensures Terminated(caps) == "Foo_Bar_"
    ensures RTrim("Foo_Bar_", {'_'}) == "Foo_Bar"
  {
    assert Terminated(caps[1..][1..]) == "";
    assert "Foo_Bar_"[..7] == "Foo_Bar";
  }
}
