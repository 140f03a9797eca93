# lwc-signals-plugin: the `@bind` pre-deploy rewrite

This project models the Salesforce CLI hook of lwc-signals-plugin, which rewrites `@bind(x)` decorators before a deploy. Before a deploy, the hook reads the script `<content>/<name>.js` of every `LightningComponentBundle`. It runs a Babel plugin over the text. When the plugin rewrote at least one member (the `seen` metadata is set), the hook overwrites the file and appends its original text to the module-level `predeployedList`. After the deploy, the hook writes every recorded original back.

The Babel plugin has two visitors:

- **Program visitor.** It scans the file for an import of `$bind` from `c/signals` and for a decorator whose callee is `bind`. If there is such a decorator and no such import, it puts `import { $bind } from 'c/signals'` in front of the program body.
- **ClassDeclaration visitor.** It handles every class member with a `bind` decorator. It requires exactly one argument and throws otherwise. It replaces the member by the text `<prop> = bind(this, "<prop>").to(<arg>)` and sets `seen`.

The modules are:

- `Wrappers` (`wrappers.dfy`): `Option` and `Result`.
- `Syntax` (`syntax.dfy`): the syntax subset the plugin looks at, as a closed datatype, plus the scan predicates. The subset is import declarations with their specifiers, class declarations with keyed members and their call-form decorators, and other statements together with the decorators in them that are not inside any class declaration. A `Class` statement stands for every class declaration of the file, however deeply it is nested, because the visitor traverses each of them.
- `Rewrite` (`rewrite.dfy`): `replacementCode` and its inverse. The Program visitor is a method with loops, proved against the function `WithBindImport`. The ClassDeclaration visitor is a set of functions over the datatype. `Transform` is the plugin and `TransformFile` is `transformFile`; Babel's parser and printer are parameters of `TransformFile`.
- `Deploy` (`deploy.dfy`): `Step` and `DeployAll` specify `logPredeployData`, and `Restored` and `LastRecorded` specify `restore`. The class `Workspace` holds the file system, as a map from location to text, and the `predeployedList`, as a `seq`. Its methods `LogPredeployData` and `Restore` loop over these fields and are proved against those functions.

On these points the model follows the code as written:

- The import check and the injected import use `$bind`, while the rewritten call uses `bind`.
- A decorator argument is not checked to be an identifier. Any other expression has no `.name`, so the template prints `undefined`. `ArgumentText` models this.
- Decorators that are not inside any class declaration, such as those in a top-level class expression, count for the import decision but are never rewritten. So such a file can get the import while `seen` stays false, and then it is not written.
- `predeployedList` is never emptied. See "Findings".
- `restore` stops at a write that throws, rather than going on with the other files. The model treats writes as infallible; see "Left out".

## Model

| member | source | states |
|---|---|---|
| Rewrite.ReplacementCode | src/hooks/predeploy/replaceBindDecorator.ts:124-126 | the replacement text starts with the property name, ends with `)`, and its length is twice the name plus the argument plus the fixed template |
| Rewrite.ReplacementRoundTrip | src/hooks/predeploy/replaceBindDecorator.ts:124-126 | for a property name without `"`, `ParseReplacement` reads exactly the property name and the argument back from the replacement text, so the text determines both |
| Rewrite.VisitSpecifiers | src/hooks/predeploy/replaceBindDecorator.ts:75-79 | the loop over an import's specifiers sets `hasBindImport` exactly when some specifier's imported identifier is `$bind` |
| Rewrite.VisitDecorators | src/hooks/predeploy/replaceBindDecorator.ts:82-86 | the decorator scan sets `hasBindDecorator` exactly when some decorator in the list has callee `bind` |
| Rewrite.VisitMembers | src/hooks/predeploy/replaceBindDecorator.ts:82-86 | the decorator scan over a class sets `hasBindDecorator` exactly when some member carries a `bind` decorator |
| Rewrite.ProgramVisitor | src/hooks/predeploy/replaceBindDecorator.ts:68-95 | the traversal's two flags and the `unshift` give the body `WithBindImport(body)`: the bind import in front if and only if some decorator anywhere has callee `bind` and no `c/signals` import has a `$bind` specifier, and the body unchanged otherwise |
| Rewrite.WithBindImport | src/hooks/predeploy/replaceBindDecorator.ts:89-94 | the body after the Program visitor: at most one statement longer, and unchanged when no import is needed; its properties are stated by `Rewrite.BindImportInserted`, and `Rewrite.ProgramVisitor` is proved to compute it |
| Rewrite.BindImportInserted | src/hooks/predeploy/replaceBindDecorator.ts:89-95 | at most one statement is added, and it is added exactly when a bind decorator is present and the import is missing; the added statement is the `$bind` import at index 0, the original statements follow it in their order, and afterwards any bind decorator has its import |
| Rewrite.FirstBind | src/hooks/predeploy/replaceBindDecorator.ts:99-102 | finds the first decorator of a member whose callee is `bind`, and finds none exactly when no decorator has that callee |
| Rewrite.ArgumentText | src/hooks/predeploy/replaceBindDecorator.ts:110 | an identifier argument prints as its name and any other expression as `undefined`; `Rewrite.ReplacementRoundTrip` shows that this text is what the replacement carries |
| Rewrite.RewriteMember | src/hooks/predeploy/replaceBindDecorator.ts:99-116 | one member fails with the arity error exactly when its bind decorator does not have one argument; otherwise it becomes its replacement text if it carried a bind decorator and stays as it was if not, `seen` is set exactly when it carried one, and no bind decorator is left on it |
| Rewrite.RewriteMembers | src/hooks/predeploy/replaceBindDecorator.ts:97-119 | over one class, fails with the arity error exactly when some bind decorator does not have one argument; otherwise every member without a bind decorator is unchanged, every bind-decorated member becomes its replacement text, `seen` is set exactly when a member carried a bind decorator, and no bind decorator is left |
| Rewrite.RewriteStmt | src/hooks/predeploy/replaceBindDecorator.ts:97-119 | a class declaration is rewritten member by member, and any other statement is left as it is |
| Rewrite.RewriteStmts | src/hooks/predeploy/replaceBindDecorator.ts:97-119 | over the whole body, fails exactly when some class member has a bind decorator without exactly one argument; otherwise the length is kept, each statement is rewritten in place, `seen` is set exactly when some class member carried a bind decorator, and no class keeps a bind decorator |
| Rewrite.Transform | src/hooks/predeploy/replaceBindDecorator.ts:65-122 | the plugin fails, with the arity error only, exactly when a class member's bind decorator does not have one argument; on success `seen` is set exactly when some class member carried a bind decorator |
| Rewrite.TransformShape | src/hooks/predeploy/replaceBindDecorator.ts:89-116 | a successful run prepends the `$bind` import if and only if it was needed and adds nothing else; every original statement follows in order, members without a bind decorator are untouched, and bind-decorated members are replaced by their replacement text |
| Rewrite.TransformTwiceIsNoOp | src/hooks/predeploy/replaceBindDecorator.ts:83-116 | running the plugin on its own output succeeds, sets no `seen`, inserts no import and changes nothing |
| Rewrite.RewriteKeepsImports | src/hooks/predeploy/replaceBindDecorator.ts:97-119 | the class rewrite keeps every `$bind` import and adds no bind decorator outside classes |
| Rewrite.NoClassBindIsNoOp | src/hooks/predeploy/replaceBindDecorator.ts:99-102 | when no class member has a bind decorator, the class rewrite returns the body unchanged and sets no `seen` |
| Rewrite.NoBindIsNoOp | src/hooks/predeploy/replaceBindDecorator.ts:68-119 | a program with no bind decorator anywhere comes out of the plugin unchanged and not `seen` |
| Rewrite.TransformFile | src/hooks/predeploy/replaceBindDecorator.ts:56-63 | fails with a parse error when the text does not parse; otherwise fails exactly when the parsed program has a badly applied bind decorator, and reports `seen` exactly when a class member carried one |
| Deploy.Step | src/hooks/predeploy/replaceBindDecorator.ts:29-41 | one component fails the hook exactly when it is a bundle whose script is missing or does not transform; a file is overwritten and an entry appended only for a bundle's `<content>/<name>.js` whose transform reported `seen`; the entry holds the text read before transforming; the file now holds the transformed code; no other file changes |
| Deploy.JsLocation | src/hooks/predeploy/replaceBindDecorator.ts:31 | the script of a bundle is `<name>.js` in the component's content directory; `Deploy.Step` states that this is the one file read, overwritten and recorded for the bundle |
| Deploy.DeployAll | src/hooks/predeploy/replaceBindDecorator.ts:28-42 | the hook keeps the set of files and keeps the earlier entries as a prefix of the list; which files change and what the new entries hold is stated by `Deploy.DeployOnlyTouchesRecorded`, `Deploy.DeployRecordsOriginals` and `Deploy.DeployRecordsEverySeen` |
| Deploy.DeployOnlyTouchesRecorded | src/hooks/predeploy/replaceBindDecorator.ts:28-42 | the pre-deploy hook keeps the earlier entries and the set of files; each new entry is the script of a bundle of the deployment, and each file whose contents changed has a new entry |
| Deploy.DeployUntouched | src/hooks/predeploy/replaceBindDecorator.ts:30-40 | a location that is no bundle's script keeps its contents and gets no new entry |
| Deploy.DeployRecordsOriginals | src/hooks/predeploy/replaceBindDecorator.ts:31-39 | when bundles have distinct scripts, each new entry holds the file's contents before the hook, those contents transform with `seen`, and the file holds the transformed code |
| Deploy.DeployRecordsEverySeen | src/hooks/predeploy/replaceBindDecorator.ts:29-41 | when the hook ran to the end, every bundle's script existed and its contents before the hook transformed, and each one whose transformation reported `seen` has an entry |
| Deploy.ArityErrorWritesNothing | src/hooks/predeploy/replaceBindDecorator.ts:33-40 | a bundle whose script has a bind decorator without exactly one argument stops the hook with the arity error, and nothing is written or recorded for it |
| Deploy.Restored | src/hooks/predeploy/replaceBindDecorator.ts:49-51 | restoring adds the recorded locations to the files and removes none; what each location then holds is stated by `Deploy.RestoredAt` |
| Deploy.LastRecorded | src/hooks/predeploy/replaceBindDecorator.ts:49-51 | gives the contents of the last entry for a location, and gives none exactly when the location has no entry |
| Deploy.RestoredAt | src/hooks/predeploy/replaceBindDecorator.ts:47-52 | after restoring, each recorded location holds the contents of its last entry, and each unrecorded location is unchanged |
| Deploy.RestoreIdempotent | src/hooks/predeploy/replaceBindDecorator.ts:47-52 | because the list is kept, restoring a second time leaves the files as the first restore did |
| Deploy.DeployRestoreRoundTrip | src/hooks/predeploy/replaceBindDecorator.ts:26-54 | a cycle started from an empty list puts every file back to its contents before the cycle, when bundles have distinct scripts, also when the hook stopped on an error |
| Deploy.StaleEntryRevertsEdit | src/hooks/predeploy/replaceBindDecorator.ts:24-54 | an entry left from an earlier cycle for a file the current cycle records no new entry for, because the file is not deployed or no longer reports `seen`, is written back over the file's current contents |
| Deploy.Workspace.constructor | src/hooks/predeploy/replaceBindDecorator.ts:24 | the hook starts with the given files and an empty list |
| Deploy.Workspace.LogPredeployData | src/hooks/predeploy/replaceBindDecorator.ts:26-45 | the loop over the components leaves the files, the list and the error exactly as `DeployAll` gives them for the old state |
| Deploy.Workspace.Restore | src/hooks/predeploy/replaceBindDecorator.ts:47-54 | the loop over the list leaves the files as `Restored` gives them, and leaves the list as it was |
| Deploy.Workspace.RestoreAndClear | src/hooks/predeploy/replaceBindDecorator.ts:47-54 | the corrected restore writes the same files back and then empties the list |

## Findings

| source | as written | input that shows it | evidently intended | confidence | as-written member | corrected member |
|---|---|---|---|---|---|---|
| src/hooks/predeploy/replaceBindDecorator.ts:24-54 | `predeployedList` is never emptied, so `restore` after any later deploy in the same process also writes back the entries of earlier deploys | a script is rewritten and recorded in a first deploy and restored. It is then edited and left out of a second deploy, or the edit drops the decorator. The restore after the second deploy writes the first deploy's original over the edit | each restore writes back only the originals of its own deploy, and the list is emptied once they are written | medium, not executed | Deploy.Workspace.Restore with Deploy.StaleEntryRevertsEdit | Deploy.Workspace.RestoreAndClear with Deploy.DeployRestoreRoundTrip |

## Left out

- Babel's parser and printer, its decorator grammar option and the re-parse in `replaceWithSourceString` are foreign. The parser is a parameter `string -> Option<Program>` and the printer a parameter `Program -> string`. A rewritten member is opaque text.
- The registration with the CLI's lifecycle events and the promise wrappers are left out. The model has no concurrency or event dispatch.
- `fs.readFileSync` and `fs.writeFileSync` act on a map from location to text. A missing file is the read error, which stops the hook as the thrown error does. Writes always succeed, so the model does not say what `restore` does when a write throws: the source stops there.
- `path.join` becomes plain concatenation `content + "/" + name + ".js"`, with no path normalisation.
- Decorators that are not calls make the Program visitor crash when it reads `callee.name`. These include `@bind` without parentheses and LWC's own `@api` and `@track`, so any component using `@api` or `@track` makes the source throw. The model has only call-form decorators.
- A callee that is not an identifier, such as `@a.bind(x)`, is modelled as a callee whose name is not `bind`.
- The source crashes on a `bind` decorator on the class itself, because the class has no `key`. The model has no class decorators.
- The model's class members are flat. A class declaration nested inside a function or a method is modelled as one more `Class` statement, since the ClassDeclaration visitor visits it like a top-level one.
- Class expressions nested inside a class declaration, as in `class A { static B = class { @bind(s) x; }; }`, cannot be expressed. The source rewrites their members too, because the traversal under a class declaration visits every decorator below it, and the model does not capture that.
- Rewrite.RewriteMember: when one member carries several `bind` decorators, the model acts on the first. What Babel's traversal does with the later ones after the member has been replaced is not modelled.
- A member key is modelled by its name. The source reads `key.name`, so an identifier key, computed or not (`[foo]` prints `foo`), gives its name. String, numeric and private keys, and computed keys that are not identifiers, have no `name` and print `undefined`; the model does not distinguish them.
- Deploy.DeployRecordsOriginals: the lemma assumes distinct script locations. With a duplicate, the second visit reads text that was already rewritten, and the model makes no claim about it.
- Deploy.DeployRestoreRoundTrip: the same assumption of distinct script locations applies here.
