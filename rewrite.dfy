/**
 * The Babel plugin that rewrites `@bind(x)` class members: the Program visitor,
 * which injects `import { $bind } from 'c/signals'` when it is missing, the
 * ClassDeclaration visitor, which replaces each bind-decorated member by source
 * text, and the transformation of one file.
 */
module Rewrite {
  import opened Wrappers
  import opened Syntax

  // ---------------------------------------------------------------------------
  // replacementCode
  // ---------------------------------------------------------------------------

  const BindOpen: string := " = bind(this, \""
  const BindTo: string := "\").to("

  /** The source text that replaces a bind-decorated member. */
  function ReplacementCode(propertyName: string, argument: string): (code: string)
    ensures |code| == 2 * |propertyName| + |BindOpen| + |BindTo| + |argument| + 1
    ensures code[..|propertyName|] == propertyName
    ensures code[|code| - 1] == ')'
  {
    propertyName + BindOpen + propertyName + BindTo + argument + ")"
  }

  predicate QuoteFree(s: string) {
    forall i :: 0 <= i < |s| ==> s[i] != '"'
  }

  /** The position of the first double quote in `s`. */
  function FirstQuote(s: string): (r: Option<nat>)
    ensures r.None? <==> QuoteFree(s)
    ensures r.Some? ==> r.value < |s| && s[r.value] == '"' && QuoteFree(s[..r.value])
  {
    if s == [] then None
    else if s[0] == '"' then Some(0)
    else
      match FirstQuote(s[1..])
      case None => None
      case Some(i) =>
        assert s[..i + 1] == [s[0]] + s[1..][..i];
        Some(i + 1)
  }

  /** Reads back the property name and the argument text from a replacement. */
  function ParseReplacement(code: string): (r: Option<(string, string)>)
    ensures r.Some? ==> code == ReplacementCode(r.value.0, r.value.1)
  {
    match FirstQuote(code)
    case None => None
    case Some(q) =>
      if q < |BindOpen| - 1 then None
      else
        var name := code[..q - (|BindOpen| - 1)];
        var start := 2 * |name| + |BindOpen| + |BindTo|;
        if |code| < start + 1 then None
        else
          var argument := code[start..|code| - 1];
          if ReplacementCode(name, argument) == code then Some((name, argument)) else None
  }

  /** The replacement text determines the property name and the argument it was built from. */
  lemma {:induction false} ReplacementRoundTrip(propertyName: string, argument: string)
    requires QuoteFree(propertyName)
    ensures ParseReplacement(ReplacementCode(propertyName, argument)) == Some((propertyName, argument))
  {
    var code := ReplacementCode(propertyName, argument);
    var q := |propertyName| + |BindOpen| - 1;
    assert code[q] == '"';
    assert code[..q] == propertyName + BindOpen[..|BindOpen| - 1];
    assert QuoteFree(code[..q]);
    match FirstQuote(code)
    case None =>
      assert false;
    case Some(q') =>
      assert q' == q;
      var start := 2 * |propertyName| + |BindOpen| + |BindTo|;
      assert code[start..|code| - 1] == argument;
  }

  // ---------------------------------------------------------------------------
  // Program visitor
  // ---------------------------------------------------------------------------

  /** The program body after the Program visitor: the bind import in front when a bind decorator needs it. */
  function WithBindImport(p: Program): Program {
    if HasBindDecorator(p) && !HasBindImport(p) then [BindImport] + p else p
  }

  /** The scan of the specifiers of one `c/signals` import. */
  method VisitSpecifiers(specifiers: seq<Specifier>) returns (hasBindImport: bool)
    ensures hasBindImport <==> exists i :: 0 <= i < |specifiers| && ImportsBind(specifiers[i])
  {
    hasBindImport := false;
    for i := 0 to |specifiers|
      invariant hasBindImport <==> exists j :: 0 <= j < i && ImportsBind(specifiers[j])
    {
      var specifier := specifiers[i];
      if specifier.Named? && specifier.imported == BindImportName {
        hasBindImport := true;
      }
    }
  }

  /** The Decorator callback of the Program scan over a list of decorators. */
  method VisitDecorators(decorators: seq<Decorator>) returns (hasBindDecorator: bool)
    ensures hasBindDecorator == AnyBind(decorators)
  {
    hasBindDecorator := false;
    for i := 0 to |decorators|
      invariant hasBindDecorator <==> exists j :: 0 <= j < i && IsBind(decorators[j])
    {
      if decorators[i].callee == BindDecoratorName {
        hasBindDecorator := true;
      }
    }
  }

  /** The Decorator callback of the Program scan over the members of a class. */
  method VisitMembers(members: seq<Member>) returns (hasBindDecorator: bool)
    ensures hasBindDecorator == ClassHasBind(members)
  {
    hasBindDecorator := false;
    for j := 0 to |members|
      invariant hasBindDecorator <==> exists m :: 0 <= m < j && MemberHasBind(members[m])
    {
      if members[j].Property? {
        var found := VisitDecorators(members[j].decorators);
        if found {
          hasBindDecorator := true;
        }
      }
    }
  }

  /**
   * The Program visitor: one traversal sets `hasBindImport` and `hasBindDecorator`,
   * then the bind import is put in front of the body when it is needed.
   */
  method ProgramVisitor(body: Program) returns (newBody: Program)
    ensures newBody == WithBindImport(body)
  {
    var hasBindImport := false;
    var hasBindDecorator := false;
    for k := 0 to |body|
      invariant hasBindImport <==> exists i :: 0 <= i < k && IsBindImport(body[i])
      invariant hasBindDecorator <==> exists i :: 0 <= i < k && StmtHasBind(body[i])
    {
      match body[k]
      case Import(source, specifiers) =>
        if source == SignalsModule {
          var found := VisitSpecifiers(specifiers);
          if found {
            hasBindImport := true;
          }
        }
      case Class(members) =>
        var found := VisitMembers(members);
        if found {
          hasBindDecorator := true;
        }
      case Other(decorators) =>
        var found := VisitDecorators(decorators);
        if found {
          hasBindDecorator := true;
        }
    }
    newBody := body;
    if hasBindDecorator && !hasBindImport {
      newBody := [BindImport] + newBody;
    }
  }

  /** The import is inserted exactly when a bind decorator exists and no `$bind` import from `c/signals` does; nothing else changes. */
  lemma {:induction false} BindImportInserted(p: Program)
    ensures |WithBindImport(p)| <= |p| + 1
    ensures |WithBindImport(p)| == |p| + 1 <==> HasBindDecorator(p) && !HasBindImport(p)
    ensures !(HasBindDecorator(p) && !HasBindImport(p)) ==> WithBindImport(p) == p
    ensures |WithBindImport(p)| == |p| + 1 ==> WithBindImport(p)[0] == BindImport
    ensures |WithBindImport(p)| == |p| ==> WithBindImport(p) == p
    ensures WithBindImport(p)[|WithBindImport(p)| - |p|..] == p
    ensures HasBindDecorator(WithBindImport(p)) ==> HasBindImport(WithBindImport(p))
  {
    var r := WithBindImport(p);
    if HasBindDecorator(p) && !HasBindImport(p) {
      assert r[1..] == p;
      assert IsBindImport(r[0]) by {
        assert ImportsBind(BindImport.specifiers[0]);
      }
    } else if HasBindDecorator(r) {
      assert HasBindImport(p);
    }
  }

  // ---------------------------------------------------------------------------
  // ClassDeclaration visitor
  // ---------------------------------------------------------------------------

  /** The position of the first bind decorator in `ds`. */
  function FirstBind(ds: seq<Decorator>): (r: Option<nat>)
    ensures r.None? <==> !AnyBind(ds)
    ensures r.Some? ==> r.value < |ds| && IsBind(ds[r.value]) && forall i :: 0 <= i < r.value ==> !IsBind(ds[i])
  {
    if ds == [] then None
    else if IsBind(ds[0]) then Some(0)
    else
      match FirstBind(ds[1..])
      case None =>
        assert forall i :: 0 < i < |ds| ==> ds[i] == ds[1..][i - 1];
        None
      case Some(i) => Some(i + 1)
  }

  /** The bind decorator of a member that the visitor acts on: its first one. */
  function BindOf(m: Member): Decorator
    requires MemberHasBind(m)
  {
    m.decorators[FirstBind(m.decorators).value]
  }

  /** A member whose bind decorator makes the visitor throw. */
  predicate BadBind(m: Member) {
    MemberHasBind(m) && |BindOf(m).arguments| != 1
  }

  predicate ClassBad(ms: seq<Member>) {
    exists j :: 0 <= j < |ms| && BadBind(ms[j])
  }

  predicate HasBadBind(p: Program) {
    exists k :: 0 <= k < |p| && p[k].Class? && ClassBad(p[k].members)
  }

  /** The text of an argument in the template: an identifier's name, or `undefined` for any other expression. */
  function ArgumentText(a: Argument): string {
    match a
    case Identifier(name) => name
    case NonIdentifier => "undefined"
  }

  /** What a member becomes: unchanged without a bind decorator, else the replacement text. */
  function Expected(m: Member): Member
    requires !BadBind(m)
  {
    if MemberHasBind(m) then Rewritten(ReplacementCode(m.key, ArgumentText(BindOf(m).arguments[0]))) else m
  }

  /** `ms'` is `ms` with every member replaced by what the visitor makes of it. */
  predicate MembersRewritten(ms: seq<Member>, ms': seq<Member>) {
    !ClassBad(ms) && |ms'| == |ms| && forall j :: 0 <= j < |ms| ==> ms'[j] == Expected(ms[j])
  }

  /** `s'` is what the ClassDeclaration visitor makes of the statement `s`. */
  predicate StmtRewritten(s: Stmt, s': Stmt) {
    if s.Class? then s'.Class? && MembersRewritten(s.members, s'.members) else s' == s
  }

  /** The visitor on one member: the new member and whether a rewrite happened. */
  function RewriteMember(m: Member): (r: Result<(Member, bool), Error>)
    ensures r.Failure? <==> BadBind(m)
    ensures r.Failure? ==> r.error == ArityError
    ensures r.Success? ==> r.value.0 == Expected(m)
    ensures r.Success? ==> (r.value.1 <==> MemberHasBind(m)) && !MemberHasBind(r.value.0)
  {
    if !MemberHasBind(m) then Success((m, false))
    else
      var d := BindOf(m);
      if |d.arguments| != 1 then Failure(ArityError)
      else Success((Rewritten(ReplacementCode(m.key, ArgumentText(d.arguments[0]))), true))
  }

  /** The visitor over the members of one class declaration. */
  function RewriteMembers(ms: seq<Member>): (r: Result<(seq<Member>, bool), Error>)
    ensures r.Failure? <==> ClassBad(ms)
    ensures r.Failure? ==> r.error == ArityError
    ensures r.Success? ==> MembersRewritten(ms, r.value.0)
    ensures r.Success? ==> (r.value.1 <==> ClassHasBind(ms))
    ensures r.Success? ==> !ClassHasBind(r.value.0)
  {
    if ms == [] then Success(([], false))
    else
      match RewriteMember(ms[0])
      case Failure(e) =>
        assert BadBind(ms[0]);
        Failure(e)
      case Success((m, seen)) =>
        match RewriteMembers(ms[1..])
        case Failure(e) =>
          assert forall j :: 0 < j < |ms| ==> ms[j] == ms[1..][j - 1];
          Failure(e)
        case Success((rest, seenRest)) =>
          var out := [m] + rest;
          assert forall j :: 0 < j < |ms| ==> ms[j] == ms[1..][j - 1] && out[j] == rest[j - 1];
          assert m == Expected(ms[0]) && !MemberHasBind(m);
          assert MembersRewritten(ms, out);
          Success((out, seen || seenRest))
  }

  /** The ClassDeclaration visitor on one statement. */
  function RewriteStmt(s: Stmt): (r: Result<(Stmt, bool), Error>)
    ensures r.Failure? <==> s.Class? && ClassBad(s.members)
    ensures r.Failure? ==> r.error == ArityError
    ensures r.Success? ==> StmtRewritten(s, r.value.0)
    ensures r.Success? ==> (r.value.1 <==> s.Class? && ClassHasBind(s.members))
    ensures r.Success? ==> !(r.value.0.Class? && ClassHasBind(r.value.0.members))
  {
    match s
    case Class(ms) =>
      (match RewriteMembers(ms)
       case Failure(e) => Failure(e)
       case Success((ms', seen)) => Success((Class(ms'), seen)))
    case _ => Success((s, false))
  }

  /** The ClassDeclaration visitor over every class declaration of the body, and whether `seen` was set. */
  function RewriteStmts(p: Program): (r: Result<(Program, bool), Error>)
    ensures r.Failure? <==> HasBadBind(p)
    ensures r.Failure? ==> r.error == ArityError
    ensures r.Success? ==> |r.value.0| == |p| && forall k :: 0 <= k < |p| ==> StmtRewritten(p[k], r.value.0[k])
    ensures r.Success? ==> (r.value.1 <==> HasClassBind(p))
    ensures r.Success? ==> !HasClassBind(r.value.0)
  {
    if p == [] then Success(([], false))
    else
      match RewriteStmt(p[0])
      case Failure(e) => Failure(e)
      case Success((s, seen)) =>
        match RewriteStmts(p[1..])
        case Failure(e) =>
          assert forall k :: 0 < k < |p| ==> p[k] == p[1..][k - 1];
          Failure(e)
        case Success((rest, seenRest)) =>
          var out := [s] + rest;
          assert forall k :: 0 < k < |p| ==> p[k] == p[1..][k - 1] && out[k] == rest[k - 1];
          Success((out, seen || seenRest))
  }

  // ---------------------------------------------------------------------------
  // The transformation of one file
  // ---------------------------------------------------------------------------

  /** The printed tree and the `seen` metadata of one transformation. */
  datatype Output = Output(body: Program, seen: bool)

  /** The plugin on a parsed program: the Program visitor, then the ClassDeclaration visitor. */
  function Transform(p: Program): (r: Result<Output, Error>)
    ensures r.Failure? <==> HasBadBind(p)
    ensures r.Failure? ==> r.error == ArityError
    ensures r.Success? ==> (r.value.seen <==> HasClassBind(p))
  {
    var body := WithBindImport(p);
    ShiftedBody(p);
    match RewriteStmts(body)
    case Failure(e) => Failure(e)
    case Success((body', seen)) => Success(Output(body', seen))
  }

  /** Putting the import in front moves every statement one place and adds no class. */
  lemma ShiftedBody(p: Program)
    ensures HasBadBind(WithBindImport(p)) == HasBadBind(p)
    ensures HasClassBind(WithBindImport(p)) == HasClassBind(p)
  {
    var body := WithBindImport(p);
    if body != p {
      assert forall k :: 0 < k < |body| ==> body[k] == p[k - 1];
      assert forall k :: 0 <= k < |p| ==> body[k + 1] == p[k];
    }
  }

  /**
   * The shape of a successful transformation: the bind import in front exactly when
   * it was needed, and after it every original statement in its place and order,
   * with each member that has no bind decorator untouched and each bind-decorated
   * one replaced by its replacement text.
   */
  lemma {:induction false} TransformShape(p: Program)
    requires Transform(p).Success?
    ensures var out := Transform(p).value.body;
      && (|out| == |p| + 1 <==> HasBindDecorator(p) && !HasBindImport(p))
      && (|out| == |p| + 1 ==> out[0] == BindImport)
      && (|out| == |p| || |out| == |p| + 1)
      && (forall k :: 0 <= k < |p| ==> StmtRewritten(p[k], out[|out| - |p| + k]))
  {
    var body := WithBindImport(p);
    var shift := |body| - |p|;
    var out := RewriteStmts(body).value.0;
    assert Transform(p).value.body == out;
    if HasBindDecorator(p) && !HasBindImport(p) {
      assert shift == 1 && body[0] == BindImport;
    } else {
      assert body == p;
    }
    forall k | 0 <= k < |p|
      ensures StmtRewritten(p[k], out[shift + k])
    {
      assert body[shift + k] == p[k];
    }
  }

  /** A transformed program has no bind decorator left in a class, so a second pass sets no `seen` and changes nothing. */
  lemma {:induction false} TransformTwiceIsNoOp(p: Program)
    requires Transform(p).Success?
    ensures Transform(Transform(p).value.body) == Success(Output(Transform(p).value.body, false))
  {
    BindImportInserted(p);
    var body := WithBindImport(p);
    var out := RewriteStmts(body).value.0;
    assert Transform(p).value.body == out;
    RewriteKeepsImports(body);
    NoClassBindIsNoOp(out);
    assert WithBindImport(out) == out;
  }

  /** The rewrite keeps every import, and adds no bind decorator outside classes. */
  lemma {:induction false} RewriteKeepsImports(p: Program)
    requires RewriteStmts(p).Success?
    ensures HasBindDecorator(RewriteStmts(p).value.0) ==> HasBindDecorator(p)
    ensures HasBindImport(p) ==> HasBindImport(RewriteStmts(p).value.0)
  {
    var out := RewriteStmts(p).value.0;
    if HasBindDecorator(out) {
      var k :| 0 <= k < |out| && StmtHasBind(out[k]);
      assert StmtRewritten(p[k], out[k]);
      assert StmtHasBind(p[k]);
    }
    if HasBindImport(p) {
      var k :| 0 <= k < |p| && IsBindImport(p[k]);
      assert StmtRewritten(p[k], out[k]);
      assert IsBindImport(out[k]);
    }
  }

  /** The rewrite leaves a program whose classes have no bind decorator as it is. */
  lemma {:induction false} NoClassBindIsNoOp(p: Program)
    requires !HasClassBind(p)
    ensures RewriteStmts(p) == Success((p, false))
  {
    var r := RewriteStmts(p);
    assert !HasBadBind(p);
    forall k | 0 <= k < |p|
      ensures r.value.0[k] == p[k]
    {
      assert StmtRewritten(p[k], r.value.0[k]);
      if p[k].Class? {
        var ms := p[k].members;
        assert !ClassHasBind(ms);
        assert forall j :: 0 <= j < |ms| ==> Expected(ms[j]) == ms[j];
        assert r.value.0[k].members == ms;
      }
    }
    assert r.value.0 == p;
  }

  /** A program with no bind decorator at all comes out of the plugin unchanged and not `seen`. */
  lemma {:induction false} NoBindIsNoOp(p: Program)
    requires !HasBindDecorator(p)
    ensures Transform(p) == Success(Output(p, false))
  {
    assert forall k :: 0 <= k < |p| ==> !StmtHasBind(p[k]);
    NoClassBindIsNoOp(p);
  }

  /** The result of `transformFile`: the printed code and the `seen` metadata. */
  datatype FileResult = FileResult(code: string, seen: bool)

  /** `transformFile`: parse, run the plugin, print. The parser and printer are parameters. */
  function TransformFile(text: string, parse: string -> Option<Program>, printer: Program -> string): (r: Result<FileResult, Error>)
    ensures parse(text).None? ==> r == Failure(ParseError)
    ensures parse(text).Some? ==> (r.Failure? <==> HasBadBind(parse(text).value))
    ensures parse(text).Some? && r.Success? ==> (r.value.seen <==> HasClassBind(parse(text).value))
  {
    match parse(text)
    case None => Failure(ParseError)
    case Some(p) =>
      match Transform(p)
      case Failure(e) => Failure(e)
      case Success(out) => Success(FileResult(printer(out.body), out.seen))
  }
}
