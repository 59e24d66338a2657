# TP24 ValidFunctionName naming rule, in Dafny

This project models `TP24_Sniffs_NamingConventions_ValidFunctionNameSniff`. It is the
PHP_CodeSniffer rule that checks the names of declared methods and of free functions.

- **Method names** (`processTokenWithinScope`). The rule gets the method name, the class
  name and the visibility (`scope`). It runs a fixed sequence of guards, and the first
  guard that applies decides the outcome:
  1. the magic `__` prefix;
  2. PHP4 constructor and destructor names;
  3. the leading `_` that each visibility demands or forbids;
  4. the camel caps check.

  Two fixed lists exempt some names. The model is the pure function
  `ValidFunctionNameSniff.CheckMethod`, which returns at most one error. `CheckMethod` is
  proved equal to `FirstMatch` over the guard table `MethodGuards`, a table-driven
  form of the same chain. The rules themselves are stated by the lemmas of
  `MethodRules`.

- **Function names** (`processTokenOutsideScope`). The rule splits a function name at
  its last `_` into a package part and a camel caps part, and drops the leading
  underscores of the package part. It then checks:
  - the magic prefix;
  - the first character of a package-prefixed name;
  - whether the camel caps part is blank;
  - the camel caps part itself;
  - the capital that starts each `_`-separated segment of the package part.

  An invalid name gets one "consider X instead" error. X is built from the corrected
  parts. The code works step by step: it updates flags and locals, runs a loop with
  `break`, and builds a string by repeated `.=` in a nested loop. The model keeps that
  shape in the methods `ProcessFunction`, `CheckPackagePart` and `RebuildPackagePart`.
  These methods are proved equal to the loop-free specification `CheckFunction`.

The module `FunctionRules` proves the function rules one by one, and `MethodRules` does
the same for the method rules. Among them:
- the character-by-character meaning of the package check;
- the shape of the rebuilt package part;
- a round trip: the suggested name passes the rule itself, once the camel caps check
  accepts its corrected camel caps part.

`PhpStrings` models the PHP string built-ins the rule relies on: `$s{0}`, `substr`,
`strtoupper`/`strtolower`, `strrpos`, `ltrim`/`rtrim`/`trim` and `explode`. `explode`
is proved to be the inverse of joining.

`PHP_CodeSniffer::isCamelCaps` is not part of this model. Its source is external, so
every check takes it as a parameter of type `CamelCapsCheck` with no assumed behaviour.

Three consequences of the code that a reader might not expect:
- `foo_BarBaz` gets the "does not begin with a capital letter" error at line 211, and the
  check returns there, so no name is suggested. `LowerCasePackageRule` states this.
- `_leadingUnderscore` has an empty package part: its last `_` is at position 0, so the
  part before it is empty (lines 192-200). Only its camel caps part is judged.
  `LeadingUnderscoreRule` states this.
- The suggested name passes the check again only if `isCamelCaps` accepts its corrected
  camel caps part. `SuggestionAccepted` states it under that condition.

## Model

| member | source | states |
|---|---|---|
| ValidFunctionNameSniff.CheckMethod | CodeSniffer/Standards/TP24/Sniffs/NamingConventions/ValidFunctionNameSniff.php:97-161 | the method-name check as its chain of early returns equals the first-applying-guard reading of the rule table (magic, PHP4 constructor, PHP4 destructor, public, protected, private, camel caps) |
| MethodRules.MagicMethodRule | CodeSniffer/Standards/TP24/Sniffs/NamingConventions/ValidFunctionNameSniff.php:103-111 | a `__` name is reported iff its remainder is not a magic method and the name is not in the public list, and then only with the magic-name error |
| MethodRules.MagicMethodIgnoresContext | CodeSniffer/Standards/TP24/Sniffs/NamingConventions/ValidFunctionNameSniff.php:103-111 | for a `__` name no later rule runs: the outcome does not depend on class, scope or the camel caps check |
| MethodRules.MagicMethodExamples | CodeSniffer/Standards/TP24/Sniffs/NamingConventions/ValidFunctionNameSniff.php:44-59 | `__doRequest`, `__construct` and `__set_state` pass; `__doSomething` gets the magic-name error |
| MethodRules.Php4NamesPass | CodeSniffer/Standards/TP24/Sniffs/NamingConventions/ValidFunctionNameSniff.php:114-122 | a non-`__` name equal to the class name or to `_` + the class name passes whatever its scope |
| MethodRules.PublicUnderscoreRule | CodeSniffer/Standards/TP24/Sniffs/NamingConventions/ValidFunctionNameSniff.php:125-135 | past the early guards, the public-underscore error is given iff the scope is public, the name starts with `_` and is not in the public list |
| MethodRules.ProtectedUnderscoreRule | CodeSniffer/Standards/TP24/Sniffs/NamingConventions/ValidFunctionNameSniff.php:137-143 | past the early guards, the protected error is given iff the scope is protected, the name does not start with `_` and is not in the protected list |
| MethodRules.PrivateUnderscoreRule | CodeSniffer/Standards/TP24/Sniffs/NamingConventions/ValidFunctionNameSniff.php:145-150 | past the early guards, the private error is given iff the scope is private and the name does not start with `_`; no list exempts it |
| MethodRules.CamelCapsRule | CodeSniffer/Standards/TP24/Sniffs/NamingConventions/ValidFunctionNameSniff.php:152-159 | the camel caps error is given iff every earlier guard passed, `isCamelCaps(name, false, isPublic, false)` fails and the name is in neither list |
| MethodRules.MethodAccepted | CodeSniffer/Standards/TP24/Sniffs/NamingConventions/ValidFunctionNameSniff.php:97-161 | a method passes iff it is an accepted magic name, a PHP4 name, or meets the underscore rule of its visibility and passes the camel caps check or is on a list |
| MethodRules.CamelCapsQuestion | CodeSniffer/Standards/TP24/Sniffs/NamingConventions/ValidFunctionNameSniff.php:153 | the outcome depends on the camel caps check only through its answer for the whole name with `public` set by visibility |
| MethodRules.OtherScopesArePublic | CodeSniffer/Standards/TP24/Sniffs/NamingConventions/ValidFunctionNameSniff.php:125 | any scope other than `private` and `protected` gives the same outcome as `public` |
| MethodRules.AllowPublicNeverReported | CodeSniffer/Standards/TP24/Sniffs/NamingConventions/ValidFunctionNameSniff.php:70-72 | the names on the public list are never reported, in any class or scope |
| MethodRules.AllowProtectedOnlyProtects | CodeSniffer/Standards/TP24/Sniffs/NamingConventions/ValidFunctionNameSniff.php:73-75 | a name on the protected list that is not the class name passes unless private, and gets the private error when private |
| MethodRules.VisibilityExamples | CodeSniffer/Standards/TP24/Sniffs/NamingConventions/ValidFunctionNameSniff.php:125-150 | a public `_foo`, a protected `bar` and a private `baz` each get their visibility's error; a private `_baz` passes if camel caps |
| ValidFunctionNameSniff.CheckFunction | CodeSniffer/Standards/TP24/Sniffs/NamingConventions/ValidFunctionNameSniff.php:173-263 | the loop-free reading of the function-name check: magic prefix, split, the two package guards, the blank test, then no error or one suggestion; what it promises is proved by the `FunctionRules` lemmas, and `ProcessFunction` is proved equal to it |
| ValidFunctionNameSniff.IsPublicScope | CodeSniffer/Standards/TP24/Sniffs/NamingConventions/ValidFunctionNameSniff.php:125 | every scope other than `private` and `protected` counts as public |
| ValidFunctionNameSniff.SegmentOk | CodeSniffer/Standards/TP24/Sniffs/NamingConventions/ValidFunctionNameSniff.php:239 | a package segment passes when its first character equals its upper-case form (meaning proved by `SegmentOkMeaning`) |
| ValidFunctionNameSniff.NewCamelCapsPart | CodeSniffer/Standards/TP24/Sniffs/NamingConventions/ValidFunctionNameSniff.php:227-233 | the camel caps part is kept when the check passes and gets its first character lower-cased otherwise (proved by `CorrectedCamel`) |
| ValidFunctionNameSniff.NewPackagePart | CodeSniffer/Standards/TP24/Sniffs/NamingConventions/ValidFunctionNameSniff.php:226-249 | the package part is kept when every segment passes and rebuilt otherwise (proved by `CorrectedPackage`; computed by `CheckPackagePart`) |
| ValidFunctionNameSniff.SuggestedName | CodeSniffer/Standards/TP24/Sniffs/NamingConventions/ValidFunctionNameSniff.php:251-258 | the corrected camel caps part alone when the package part is empty, otherwise the rtrimmed package part, `_` and the camel caps part |
| ValidFunctionNameSniff.Suggestion | CodeSniffer/Standards/TP24/Sniffs/NamingConventions/ValidFunctionNameSniff.php:225-258 | the suggested name built from the corrected parts (how it splits again: `SuggestionSplit`) |
| PhpStrings.StartsWith | CodeSniffer/Standards/TP24/Sniffs/NamingConventions/ValidFunctionNameSniff.php:103 | `preg_match('|^__|', $s) !== 0`: the string begins with the given prefix (also used at line 178) |
| ValidFunctionNameSniff.ProcessFunction | CodeSniffer/Standards/TP24/Sniffs/NamingConventions/ValidFunctionNameSniff.php:173-263 | the step-by-step function check adds exactly the errors of the loop-free `CheckFunction`, so at most one |
| ValidFunctionNameSniff.CheckPackagePart | CodeSniffer/Standards/TP24/Sniffs/NamingConventions/ValidFunctionNameSniff.php:235-249 | the segment loop with `break` reports success iff every segment starts with its own upper case; the package part is kept on success and rebuilt otherwise |
| ValidFunctionNameSniff.RebuildPackagePart | CodeSniffer/Standards/TP24/Sniffs/NamingConventions/ValidFunctionNameSniff.php:240-243 | the `.=` loop yields every segment with its first character upper-cased, each followed by `_` |
| ValidFunctionNameSniff.TerminatedSnoc | CodeSniffer/Standards/TP24/Sniffs/NamingConventions/ValidFunctionNameSniff.php:242 | appending one segment to the rebuilt part appends it and its `_`, as `.=` does |
| ValidFunctionNameSniff.SplitFunctionName | CodeSniffer/Standards/TP24/Sniffs/NamingConventions/ValidFunctionNameSniff.php:190-201 | the package part is empty or does not start with `_` |
| ValidFunctionNameSniff.SplitFunctionNameMeaning | CodeSniffer/Standards/TP24/Sniffs/NamingConventions/ValidFunctionNameSniff.php:190-201 | without `_` the package part is empty and the camel caps part is the name; otherwise name = prefix + `_` + camel caps part, the package part is the prefix without leading `_`, and the camel caps part holds no `_` |
| FunctionRules.SplitAtLastUnderscore | CodeSniffer/Standards/TP24/Sniffs/NamingConventions/ValidFunctionNameSniff.php:192-200 | the split is unique: `x_y` with no `_` in y splits into ltrim(x) and y |
| FunctionRules.PackageStartsName | CodeSniffer/Standards/TP24/Sniffs/NamingConventions/ValidFunctionNameSniff.php:196-200 | a package part of a name not starting with `_` starts with the name's first character |
| FunctionRules.SplitPackaged | CodeSniffer/Standards/TP24/Sniffs/NamingConventions/ValidFunctionNameSniff.php:192-200 | `x_y`, x not starting with `_`, y without `_`, splits into x and y and has no magic prefix |
| FunctionRules.SplitUnderscored | CodeSniffer/Standards/TP24/Sniffs/NamingConventions/ValidFunctionNameSniff.php:192-200 | `_x_y` splits into x and y, starts with `_` and has no magic prefix |
| FunctionRules.SplitLeadingUnderscore | CodeSniffer/Standards/TP24/Sniffs/NamingConventions/ValidFunctionNameSniff.php:192-200 | `_y`, y without `_`, has an empty package part and camel caps part y |
| FunctionRules.MagicFunctionRule | CodeSniffer/Standards/TP24/Sniffs/NamingConventions/ValidFunctionNameSniff.php:178-186 | a `__` function passes iff its remainder is a magic function, and otherwise gets only the magic-name error |
| FunctionRules.MagicFunctionExamples | CodeSniffer/Standards/TP24/Sniffs/NamingConventions/ValidFunctionNameSniff.php:66-68 | `__autoload` passes and `__unknownMagic` gets the magic-name error |
| FunctionRules.PackageUnderscoreRule | CodeSniffer/Standards/TP24/Sniffs/NamingConventions/ValidFunctionNameSniff.php:204-209 | a non-magic name gets the "only private methods" error iff it has a package part and starts with `_` |
| FunctionRules.PackageNotCapitalRule | CodeSniffer/Standards/TP24/Sniffs/NamingConventions/ValidFunctionNameSniff.php:204-215 | a non-magic name gets the capital-letter error iff it has a package part and starts with a lower-case letter |
| FunctionRules.IncompleteRule | CodeSniffer/Standards/TP24/Sniffs/NamingConventions/ValidFunctionNameSniff.php:218-223 | a non-magic name gets the "incomplete" error iff the package rules pass and its camel caps part is blank (what trim strips) |
| FunctionRules.FunctionAccepted | CodeSniffer/Standards/TP24/Sniffs/NamingConventions/ValidFunctionNameSniff.php:204-251 | a non-magic name passes iff the package rules pass, the camel caps part is not blank and passes the check, and every word of the package part starts capitalised |
| FunctionRules.NoPackageRule | CodeSniffer/Standards/TP24/Sniffs/NamingConventions/ValidFunctionNameSniff.php:225-258 | without a package part and with a non-blank camel caps part, the name passes iff the check accepts it, and otherwise gets the lower-cased-first camel caps part as its suggestion |
| FunctionRules.LowerCasePackageRule | CodeSniffer/Standards/TP24/Sniffs/NamingConventions/ValidFunctionNameSniff.php:211-215 | `x_y` with x starting lower-case gets the capital-letter error, not a suggestion (`foo_BarBaz`) |
| FunctionRules.LeadingUnderscoreRule | CodeSniffer/Standards/TP24/Sniffs/NamingConventions/ValidFunctionNameSniff.php:192-200 | `_y` has no package part and gets exactly the outcome of its camel caps part (`_leadingUnderscore`) |
| FunctionRules.UnderscorePackageRule | CodeSniffer/Standards/TP24/Sniffs/NamingConventions/ValidFunctionNameSniff.php:205-209 | `_x_y` gets the "only private methods" error (`_Foo_bar`) |
| FunctionRules.WordStartsCons | CodeSniffer/Standards/TP24/Sniffs/NamingConventions/ValidFunctionNameSniff.php:237-239 | the character-wise package condition splits over the first character |
| FunctionRules.SegmentOkMeaning | CodeSniffer/Standards/TP24/Sniffs/NamingConventions/ValidFunctionNameSniff.php:239 | `$bit{0} === strtoupper($bit{0})` holds iff the segment is empty or does not start with a lower-case letter |
| FunctionRules.SegmentsAgainstWordStarts | CodeSniffer/Standards/TP24/Sniffs/NamingConventions/ValidFunctionNameSniff.php:237-239 | checking the exploded segments equals checking every character that starts a word |
| FunctionRules.PackageCheckMeaning | CodeSniffer/Standards/TP24/Sniffs/NamingConventions/ValidFunctionNameSniff.php:237-239 | every segment passes iff every character at the start or after a `_` is not a lower-case letter |
| FunctionRules.WordStartsPrefix | CodeSniffer/Standards/TP24/Sniffs/NamingConventions/ValidFunctionNameSniff.php:256 | a prefix of a name whose words start capitalised has that property too (what rtrim keeps) |
| FunctionRules.ExplodeTerminated | CodeSniffer/Standards/TP24/Sniffs/NamingConventions/ValidFunctionNameSniff.php:241-243 | exploding the `_`-terminated segments gives them back, plus an empty last piece |
| FunctionRules.CapitaliseFirstNoUnderscore | CodeSniffer/Standards/TP24/Sniffs/NamingConventions/ValidFunctionNameSniff.php:242 | capitalising a segment adds no `_` |
| FunctionRules.RebuiltSegments | CodeSniffer/Standards/TP24/Sniffs/NamingConventions/ValidFunctionNameSniff.php:240-243 | the rebuilt package part explodes into the capitalised segments plus an empty piece, and every one of them passes |
| FunctionRules.RebuiltWordStarts | CodeSniffer/Standards/TP24/Sniffs/NamingConventions/ValidFunctionNameSniff.php:240-243 | every word of the rebuilt package part starts capitalised |
| FunctionRules.RebuiltFirst | CodeSniffer/Standards/TP24/Sniffs/NamingConventions/ValidFunctionNameSniff.php:240-243 | the rebuilt package part starts with the first segment's first character upper-cased |
| FunctionRules.CorrectedCamel | CodeSniffer/Standards/TP24/Sniffs/NamingConventions/ValidFunctionNameSniff.php:230-233 | the corrected camel caps part has the same length and tail, only the first character lower-cased when the check failed, and stays `_`-free and non-blank |
| FunctionRules.CorrectedPackage | CodeSniffer/Standards/TP24/Sniffs/NamingConventions/ValidFunctionNameSniff.php:235-249 | the corrected package part keeps its first character and has every word capitalised |
| FunctionRules.SuggestionSplit | CodeSniffer/Standards/TP24/Sniffs/NamingConventions/ValidFunctionNameSniff.php:251-258 | the suggestion splits into the corrected camel caps part and the rtrimmed corrected package part, the latter empty iff the original had none |
| FunctionRules.SuggestionStart | CodeSniffer/Standards/TP24/Sniffs/NamingConventions/ValidFunctionNameSniff.php:251-258 | the suggestion has no magic prefix and, with a package part, starts with neither `_` nor a lower-case letter |
| FunctionRules.SuggestionPasses | CodeSniffer/Standards/TP24/Sniffs/NamingConventions/ValidFunctionNameSniff.php:204-261 | checking a suggestion reports nothing once the camel caps check accepts its camel caps part |
| FunctionRules.InvalidNameSuggestion | CodeSniffer/Standards/TP24/Sniffs/NamingConventions/ValidFunctionNameSniff.php:225-261 | an invalid name's suggestion is built from its own split; the camel caps part is non-blank and `_`-free, and a package part starts like the name |
| FunctionRules.SuggestionAccepted | CodeSniffer/Standards/TP24/Sniffs/NamingConventions/ValidFunctionNameSniff.php:173-263 | round trip: checking the suggested name reports nothing, when the camel caps check accepts the suggestion's camel caps part |
| FunctionRules.FooBarSegments | CodeSniffer/Standards/TP24/Sniffs/NamingConventions/ValidFunctionNameSniff.php:237 | `Foo_bar` explodes into `Foo` and `bar` |
| FunctionRules.FooBarCapitalised | CodeSniffer/Standards/TP24/Sniffs/NamingConventions/ValidFunctionNameSniff.php:239-243 | `bar` fails the segment check, and capitalising gives `Foo`, `Bar` |
| FunctionRules.FooBarTerminated | CodeSniffer/Standards/TP24/Sniffs/NamingConventions/ValidFunctionNameSniff.php:241-256 | `Foo` and `Bar`, each followed by `_`, give `Foo_Bar_`, which rtrims to `Foo_Bar` |
| FunctionRules.RebuiltPackageExample | CodeSniffer/Standards/TP24/Sniffs/NamingConventions/ValidFunctionNameSniff.php:235-256 | the package part `Foo_bar` fails and becomes `Foo_Bar_`, and with camel caps part `Baz` the suggestion is `Foo_Bar_Baz` |
| ValidFunctionNameSniff.LowercaseFirst | CodeSniffer/Standards/TP24/Sniffs/NamingConventions/ValidFunctionNameSniff.php:232 | same length; only the first character is lower-cased |
| ValidFunctionNameSniff.CapitaliseFirst | CodeSniffer/Standards/TP24/Sniffs/NamingConventions/ValidFunctionNameSniff.php:242 | same length; only the first character is upper-cased |
| ValidFunctionNameSniff.CapitalisedSegments | CodeSniffer/Standards/TP24/Sniffs/NamingConventions/ValidFunctionNameSniff.php:241-243 | one capitalised segment per segment, in order |
| PhpStrings.FirstChar | CodeSniffer/Standards/TP24/Sniffs/NamingConventions/ValidFunctionNameSniff.php:131 | `$s{0}`: the first character, or the empty string for an empty string |
| PhpStrings.DropFirst | CodeSniffer/Standards/TP24/Sniffs/NamingConventions/ValidFunctionNameSniff.php:232 | `substr($s, 1)`: together with the first character it gives back s |
| PhpStrings.UpperChar | CodeSniffer/Standards/TP24/Sniffs/NamingConventions/ValidFunctionNameSniff.php:211 | strtoupper on a character: changes exactly the ASCII lower-case letters, to their capitals |
| PhpStrings.LowerChar | CodeSniffer/Standards/TP24/Sniffs/NamingConventions/ValidFunctionNameSniff.php:232 | strtolower on a character: changes exactly the ASCII capitals, to lower case |
| PhpStrings.StrToUpper | CodeSniffer/Standards/TP24/Sniffs/NamingConventions/ValidFunctionNameSniff.php:211 | same length, every character mapped by UpperChar |
| PhpStrings.StrToLower | CodeSniffer/Standards/TP24/Sniffs/NamingConventions/ValidFunctionNameSniff.php:232 | same length, every character mapped by LowerChar |
| PhpStrings.Strrpos | CodeSniffer/Standards/TP24/Sniffs/NamingConventions/ValidFunctionNameSniff.php:192-193 | none iff the character is absent; otherwise a position holding it with no occurrence after it |
| PhpStrings.LTrim | CodeSniffer/Standards/TP24/Sniffs/NamingConventions/ValidFunctionNameSniff.php:200 | a suffix of s; everything cut is in the set; the result does not start with one of them |
| PhpStrings.RTrim | CodeSniffer/Standards/TP24/Sniffs/NamingConventions/ValidFunctionNameSniff.php:252-256 | a prefix of s; everything cut is in the set; the result does not end with one of them |
| PhpStrings.Trim | CodeSniffer/Standards/TP24/Sniffs/NamingConventions/ValidFunctionNameSniff.php:219 | trim is empty iff every character is one trim strips |
| PhpStrings.Explode | CodeSniffer/Standards/TP24/Sniffs/NamingConventions/ValidFunctionNameSniff.php:237 | at least one piece, no piece holds the separator, and joining the pieces gives s back |
| PhpStrings.ExplodeJoin | CodeSniffer/Standards/TP24/Sniffs/NamingConventions/ValidFunctionNameSniff.php:237 | explode undoes joining separator-free pieces |
| PhpStrings.ExplodeAtSeparator | CodeSniffer/Standards/TP24/Sniffs/NamingConventions/ValidFunctionNameSniff.php:237 | the piece before the first separator comes first |
| PhpStrings.ExplodeNoSeparator | CodeSniffer/Standards/TP24/Sniffs/NamingConventions/ValidFunctionNameSniff.php:237 | a separator-free string explodes to itself |
| PhpStrings.ExplodeFirstPiece | CodeSniffer/Standards/TP24/Sniffs/NamingConventions/ValidFunctionNameSniff.php:237-239 | the first piece of a string not starting with the separator starts like the string |

## Left out

- `PHP_CodeSniffer::isCamelCaps` is external, so it is an uninterpreted parameter. No property that depends on its behaviour is claimed.
- The host file API is replaced by plain inputs and outputs. `getDeclarationName` and `getMethodProperties` become the name, class name and scope. `addError` becomes the returned error: an `Option` for methods, a list of at most one for functions. Token positions are not modelled.
- The message texts are reduced to the kind of error plus the suggested name. This covers the class-name prefix, `ucfirst($scope)` and the "magic methods" wording of the function message.
- The debug `echo` at line 139 is left out, because it is output only.
- The class-loading guard and its exception (lines 17-19) are left out.
- The constructor's scope and token registration (lines 80-84) is left out. The model starts where the host has already chosen between the two entry points.
- The PHP notice raised by `$s{0}` on an empty string is not modelled. The value PHP reads (an empty string) is used instead of a precondition. So an empty method name and an empty package segment (as in `Foo__bar`) are covered, with no `requires`.
- Names are sequences of characters, while PHP's `$s{0}`, `strrpos`, `ltrim`/`rtrim`/`trim` and `explode` work on bytes. The results agree, because every character the rule looks for or changes is a single ASCII byte: `_`, the ASCII letters and trim's whitespace. A multi-byte character is left alone by both: the C-locale case mapping does not change its bytes, and none of them is `_` or whitespace.
- Case mapping is ASCII only. This is `strtoupper`/`strtolower` in the default C locale. Locale-dependent mappings are not modelled.
- `in_array` uses loose comparison in the source. It is modelled as membership, because no list entry is a numeric string.
- SuggestionAccepted: the round trip needs the camel caps check to accept the suggestion's camel caps part. Without a model of `isCamelCaps` it cannot be stated unconditionally.
- Idempotence of the checks is not stated: they are functions of their inputs, so checking twice gives the same result by definition.
