/**
 * The part of a Lightning web component's JavaScript syntax tree that the
 * `@bind` rewrite looks at: import declarations, class declarations with
 * their decorated members, and everything else as statements that may hold
 * decorators outside any class declaration. A `Class` statement stands for
 * every class declaration of the file, however deeply it is nested.
 */
module Syntax {

  /** The module path the signals library is imported from. */
  const SignalsModule: string := "c/signals"
  /** The binding name the import scan looks for and the injected import declares. */
  const BindImportName: string := "$bind"
  /** The callee name of the decorator that is rewritten. */
  const BindDecoratorName: string := "bind"

  /** One specifier of an import declaration. */
  datatype Specifier =
    | Named(imported: string, local: string)        // import { imported as local }
    | QuotedNamed(imported: string, local: string)  // import { "imported" as local }: the imported name is a string literal
    | Default(local: string)                        // import local
    | Namespace(local: string)                      // import * as local

  /** A decorator argument: an identifier reference, or any other expression (which has no name). */
  datatype Argument = Identifier(name: string) | NonIdentifier

  /** A decorator in call form, `@callee(arguments)`. */
  datatype Decorator = Decorator(callee: string, arguments: seq<Argument>)

  /** A class member: a keyed element with its decorators, or a member already replaced by source text. */
  datatype Member =
    | Property(key: string, decorators: seq<Decorator>)
    | Rewritten(code: string)

  /** A statement of the program body. */
  datatype Stmt =
    | Import(source: string, specifiers: seq<Specifier>)
    | Class(members: seq<Member>)
    | Other(decorators: seq<Decorator>)   // decorators that are not inside any class declaration

  type Program = seq<Stmt>

  /** The import `import { $bind } from 'c/signals'` that the rewrite injects. */
  const BindImport: Stmt := Import(SignalsModule, [Named(BindImportName, BindImportName)])

  /** Errors that make the transformation of one file fail. */
  datatype Error =
    | ParseError               // the parser rejected the text
    | ArityError               // a bind decorator does not have exactly one argument
    | ReadError(location: string)  // the file to transform does not exist

  predicate IsBind(d: Decorator) {
    d.callee == BindDecoratorName
  }

  predicate AnyBind(ds: seq<Decorator>) {
    exists i :: 0 <= i < |ds| && IsBind(ds[i])
  }

  /** A specifier whose imported identifier is `$bind`. */
  predicate ImportsBind(sp: Specifier) {
    sp.Named? && sp.imported == BindImportName
  }

  /** An import from `c/signals` that has a specifier importing `$bind`. */
  predicate IsBindImport(s: Stmt) {
    s.Import? && s.source == SignalsModule &&
    exists i :: 0 <= i < |s.specifiers| && ImportsBind(s.specifiers[i])
  }

  predicate HasBindImport(p: Program) {
    exists k :: 0 <= k < |p| && IsBindImport(p[k])
  }

  function MemberDecorators(m: Member): seq<Decorator> {
    if m.Property? then m.decorators else []
  }

  predicate MemberHasBind(m: Member) {
    AnyBind(MemberDecorators(m))
  }

  predicate ClassHasBind(ms: seq<Member>) {
    exists j :: 0 <= j < |ms| && MemberHasBind(ms[j])
  }

  /** The statement holds a bind decorator anywhere. */
  predicate StmtHasBind(s: Stmt) {
    match s
    case Import(_, _) => false
    case Class(ms) => ClassHasBind(ms)
    case Other(ds) => AnyBind(ds)
  }

  /** Some decorator anywhere in the program has callee `bind`. */
  predicate HasBindDecorator(p: Program) {
    exists k :: 0 <= k < |p| && StmtHasBind(p[k])
  }

  /** Some member of a class declaration carries a bind decorator. */
  predicate HasClassBind(p: Program) {
    exists k :: 0 <= k < |p| && p[k].Class? && ClassHasBind(p[k].members)
  }
}
