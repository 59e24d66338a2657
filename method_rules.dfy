/**
  What the method-name check promises, rule by rule: which single error, if any,
  a method declaration gets.
 */
module MethodRules {
  import opened Wrappers
  import opened PhpStrings
  import opened ValidFunctionNameSniff

  /** Neither the magic prefix nor a PHP4 constructor or destructor name. */
  predicate PassesEarlyGuards(methodName: string, className: string) {
    !StartsWith(methodName, "__") && methodName != className && methodName != "_" + className
  }

  /**
    A "__" name is reported exactly when its remainder is no magic method and the
    whole name is not exempt; the error is then the magic-name one.
   */
  lemma MagicMethodRule(methodName: string, className: string, scope: string, isCamelCaps: CamelCapsCheck)
    requires StartsWith(methodName, "__")
    ensures CheckMethod(methodName, className, scope, isCamelCaps).Some?
            <==> methodName[2..] !in MagicMethods && methodName !in AllowPublic
    ensures CheckMethod(methodName, className, scope, isCamelCaps) in {None, Some(MagicMethodName)}
  {
  }

  /** For a "__" name no later rule runs: class, scope and camel caps check are never looked at. */
  lemma MagicMethodIgnoresContext(methodName: string,
                                  className: string, scope: string, isCamelCaps: CamelCapsCheck,
                                  className': string, scope': string, isCamelCaps': CamelCapsCheck)
    requires StartsWith(methodName, "__")
    ensures CheckMethod(methodName, className, scope, isCamelCaps)
            == CheckMethod(methodName, className', scope', isCamelCaps')
  {
  }

  /** `__doRequest` and the real magic methods pass; another "__" name does not. */
  lemma MagicMethodExamples(className: string, scope: string, isCamelCaps: CamelCapsCheck)
    ensures CheckMethod("__doRequest", className, scope, isCamelCaps) == None
    ensures CheckMethod("__construct", className, scope, isCamelCaps) == None
    ensures CheckMethod("__set_state", className, scope, isCamelCaps) == None
    ensures CheckMethod("__doSomething", className, scope, isCamelCaps) == Some(MagicMethodName)
  {
  }

  /** PHP4 constructor and destructor names pass whatever their visibility. */
  lemma Php4NamesPass(methodName: string, className: string, scope: string, isCamelCaps: CamelCapsCheck)
    requires !StartsWith(methodName, "__")
    requires methodName == className || methodName == "_" + className
    ensures CheckMethod(methodName, className, scope, isCamelCaps) == None
  {
  }

  /** The public rule: a public "_" name is reported unless it is exempt. */
  lemma PublicUnderscoreRule(methodName: string, className: string, scope: string, isCamelCaps: CamelCapsCheck)
    requires PassesEarlyGuards(methodName, className)
    ensures CheckMethod(methodName, className, scope, isCamelCaps) == Some(PublicUnderscore)
            <==> IsPublicScope(scope) && FirstChar(methodName) == "_" && methodName !in AllowPublic
  {
  }

  /** The protected rule: a protected name without "_" is reported unless it is exempt. */
  lemma ProtectedUnderscoreRule(methodName: string, className: string, scope: string, isCamelCaps: CamelCapsCheck)
    requires PassesEarlyGuards(methodName, className)
    ensures CheckMethod(methodName, className, scope, isCamelCaps) == Some(ProtectedNoUnderscore)
            <==> scope == "protected" && FirstChar(methodName) != "_" && methodName !in AllowProtected
  {
  }

  /** The private rule: a private name without "_" is always reported; no list exempts it. */
  lemma PrivateUnderscoreRule(methodName: string, className: string, scope: string, isCamelCaps: CamelCapsCheck)
    requires PassesEarlyGuards(methodName, className)
    ensures CheckMethod(methodName, className, scope, isCamelCaps) == Some(PrivateNoUnderscore)
            <==> scope == "private" && FirstChar(methodName) != "_"
  {
  }

  /** The underscore placement the three visibility rules demand. */
  predicate UnderscoreAsVisibilityDemands(methodName: string, scope: string) {
    && (IsPublicScope(scope) ==> FirstChar(methodName) != "_" || methodName in AllowPublic)
    && (scope == "protected" ==> FirstChar(methodName) == "_" || methodName in AllowProtected)
    && (scope == "private" ==> FirstChar(methodName) == "_")
  }

  /**
    The camel caps error comes last: exactly when every earlier rule passed, the
    camel caps check (asked about the whole name, with `public` set for public
    methods) fails, and the name is on neither list.
   */
  lemma CamelCapsRule(methodName: string, className: string, scope: string, isCamelCaps: CamelCapsCheck)
    ensures CheckMethod(methodName, className, scope, isCamelCaps) == Some(MethodNotCamelCaps)
            <==> PassesEarlyGuards(methodName, className)
                 && UnderscoreAsVisibilityDemands(methodName, scope)
                 && !isCamelCaps(methodName, false, IsPublicScope(scope), false)
                 && methodName !in AllowPublic && methodName !in AllowProtected
  {
  }

  /** A method passes exactly when no rule reports it. */
  lemma MethodAccepted(methodName: string, className: string, scope: string, isCamelCaps: CamelCapsCheck)
    ensures CheckMethod(methodName, className, scope, isCamelCaps) == None
            <==> if StartsWith(methodName, "__") then
                   methodName[2..] in MagicMethods || methodName in AllowPublic
                 else
                   methodName == className || methodName == "_" + className
                   || (UnderscoreAsVisibilityDemands(methodName, scope)
                       && (isCamelCaps(methodName, false, IsPublicScope(scope), false)
                           || methodName in AllowPublic || methodName in AllowProtected))
  {
  }

  /** The camel caps check is consulted with one question only: the whole name, not strict. */
  lemma CamelCapsQuestion(methodName: string, className: string, scope: string,
                          isCamelCaps: CamelCapsCheck, isCamelCaps': CamelCapsCheck)
    requires isCamelCaps(methodName, false, IsPublicScope(scope), false)
             == isCamelCaps'(methodName, false, IsPublicScope(scope), false)
    ensures CheckMethod(methodName, className, scope, isCamelCaps)
            == CheckMethod(methodName, className, scope, isCamelCaps')
  {
  }

  /** Every scope other than "private" and "protected" is treated as "public". */
  lemma OtherScopesArePublic(methodName: string, className: string, scope: string, isCamelCaps: CamelCapsCheck)
    requires IsPublicScope(scope)
    ensures CheckMethod(methodName, className, scope, isCamelCaps)
            == CheckMethod(methodName, className, "public", isCamelCaps)
  {
  }

  /** The names on the public list are never reported, in any class and scope. */
  lemma AllowPublicNeverReported(methodName: string, className: string, scope: string, isCamelCaps: CamelCapsCheck)
    requires methodName in AllowPublic
    ensures CheckMethod(methodName, className, scope, isCamelCaps) == None
  {
  }

  /**
    The names on the protected list pass as public or protected methods, but as
    private methods they get the private-underscore error (unless they name the class).
   */
  lemma AllowProtectedOnlyProtects(methodName: string, className: string, scope: string,
                                   isCamelCaps: CamelCapsCheck)
    requires methodName in AllowProtected && methodName != className
    ensures scope != "private" ==> CheckMethod(methodName, className, scope, isCamelCaps) == None
    ensures scope == "private" ==> CheckMethod(methodName, className, scope, isCamelCaps) == Some(PrivateNoUnderscore)
  {
    assert methodName[0] != '_';
    assert |methodName| >= 2 && methodName[..2] != "__";
    assert methodName != "_" + className by {
      assert ("_" + className)[0] == '_';
    }
  }

  /** Declarations with one error each, one per visibility rule, and one that passes. */
  lemma VisibilityExamples(isCamelCaps: CamelCapsCheck)
    ensures CheckMethod("_foo", "Widget", "public", isCamelCaps) == Some(PublicUnderscore)
    ensures CheckMethod("bar", "Widget", "protected", isCamelCaps) == Some(ProtectedNoUnderscore)
    ensures CheckMethod("baz", "Widget", "private", isCamelCaps) == Some(PrivateNoUnderscore)
    ensures isCamelCaps("_baz", false, false, false) ==> CheckMethod("_baz", "Widget", "private", isCamelCaps) == None
  {
    assert "_foo"[..2] == "_f" && "_baz"[..2] == "_b";
  }
}
