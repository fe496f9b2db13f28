# queryscope tokenizer transformer, modelled in Dafny

This project models the build-time TypeScript transformer of queryscope
(`transformers/tokenizer.ts`). The transformer walks each source file's syntax
tree depth first. A small state machine (`QSState`) watches for a variable
declaration whose type is exactly `QueryScope` and whose initializer is an
object literal. When it finds one, it scans the literal's properties for
`query` and `token` and strips one surrounding quote from each value. It then
asks the signer for a token over the query and puts a fresh literal
`{ query, token }` in place of the original. When either credential is
missing, every node passes through untouched.

Files and modules:

- `results.dfy` (`Results`): `Option`, `Outcome` and the two faults that can
  abort the pass.
- `syntax.dfy` (`Syntax`): the syntax tree as the visitor sees it, the
  quote-stripping `replace`, and the replacement literal.
- `signer.dfy` (`Signer`): `queryDigest` and `syncSignQueryDigest`. The
  configuration is passed in, and the HMAC and RS256 libraries are function
  values.
- `scanner.dfy` (`Scanner`): the visitor as pure functions. `Enter` holds the
  state transitions, `ScanProps` the property loop, `ScopeLiteral` the rewrite
  decision, `Visit`/`VisitAll`/`VisitProps` the traversal, and `Transform` a
  whole file.
- `transformer.dfy` (`Tokenizer`): the closure as a class. Its fields are
  `state`, `variableId`, `token` and `query`. Its methods update them node by
  node, and each method is proved to agree with the `Scanner` function it
  implements.
- `scanner_proofs.dfy` (`ScannerProofs`): the properties of the visitor.

Where the design description of the system and the code differ, the model
follows the code:

- Every variable declaration is processed, whether it is `const`, `let` or
  `var`. The code never looks at the binding keyword, so the node does not
  carry one.
- This file does not resolve, expand or remove `QueryScopePart` declarations,
  and it keeps no symbol table. A part's type text is not `QueryScope`, so the
  declaration passes through unchanged (`PartDeclarationUntouched`). The query
  is the raw source text of the initializer with its quotes stripped, so an
  interpolation `${…}` is kept as written (`ScopeDeclarationSigned`). The
  expansion that `tests/src/01.base.tests.ts` expects does not happen in this
  transformer.
- The token's claims are the digest `qd` and the library's `iat`. The issuer
  setting is read (tokenizer.ts:6) but only the commented-out async signer
  uses it.
- A scope literal with no `query` property is returned as it is.
- With credentials present, the signer either returns a token or throws. So
  the "no token, return the node" branch (tokenizer.ts:103-105) is never taken
  in practice (`ScopeLiteralOutcome`).
- The state is not reset between statements. A `QueryScope` type met in state
  `VariableDeclaration` anywhere, for instance in `const x = y as QueryScope`,
  makes the next object literal visited before another variable declaration
  a scope literal, wherever it stands. The model keeps this behaviour.
- Two inputs make the code throw, and the model has both as faults:
  - A property with fewer than three children, such as a spread `...base` or a
    shorthand `{ query }`. Here `getChildAt(2)` is undefined and `getText()`
    throws. The name has already been read (tokenizer.ts:80), but this
    happens before the name is tested (tokenizer.ts:82), so it happens
    whatever the property is called.
  - A refusal by the JWT library, for instance a malformed key.

## Model

| member | source | states |
|---|---|---|
| `Syntax.StripQuotes` | transformers/tokenizer.ts:81 | Case by case: one leading and one trailing `"`, `'` or backtick are removed, and only when present. A lone quote character becomes empty. The result is the input with at most one character cut from each end. |
| `Syntax.StripQuotesOfQuote` | transformers/tokenizer.ts:81 | Stripping a double-quoted literal gives back its content, for every string. |
| `Syntax.StringProperty` | transformers/tokenizer.ts:100-101 | A created property has the given name, and its value text strips back to the given value. |
| `Syntax.Replacement` | transformers/tokenizer.ts:99-102 | The replacement literal has exactly two properties, `query` then `token`. Their values read back as the query and the token. |
| `Signer.SyncSignQueryDigest` | transformers/tokenizer.ts:25-33 | There is no token exactly when a credential is missing. Otherwise the result is the RS256 token over `{ qd, iat }`, where `qd` is the HMAC of this query keyed by the client id, or `SigningFailed` when the library throws. |
| `Signer.SameDigestSameToken` | transformers/tokenizer.ts:9-11 | The query reaches the token only through its digest. Queries with equal digests get equal outcomes. |
| `Scanner.Enter` | transformers/tokenizer.ts:50-72 | The transition table. A declaration gives `VariableDeclaration` and clears `variableId`, `token` and `query`. In that state an identifier sets `variableId`, and a type reference moves to `QSTypeReference` exactly when its text is `QueryScope` (otherwise to `Unknown`). Nothing else changes the state. |
| `Scanner.ScopeLiteral` | transformers/tokenizer.ts:73-111 | After a scope literal the state is `Unknown` and `variableId` is unchanged. The node that comes back is either the original literal or a two-field replacement. It is a replacement only if it is built from the query and token the state now holds. |
| `Scanner.ScanPropsFailurePersists` | transformers/tokenizer.ts:76-81 | Once a property without a value text has aborted the scan, later properties do not matter. |
| `Tokenizer.Transformer.constructor` | transformers/tokenizer.ts:44-47 | Each file starts with state `Unknown` and no `variableId`, `token` or `query`. |
| `Tokenizer.Transformer.Visitor` | transformers/tokenizer.ts:48-114 | The visitor method returns what `Scanner.Visit` returns from the state it started in, and leaves the fields equal to the new state. |
| `Tokenizer.Transformer.RewriteScope` | transformers/tokenizer.ts:73-111 | The scope-literal branch agrees with `Scanner.ScopeLiteral`. |
| `Tokenizer.Transformer.ScanProperties` | transformers/tokenizer.ts:76-87 | The property loop leaves `query` and `token` as `ScanProps` computes them, or reports the fault that stops it. |
| `Tokenizer.Transformer.VisitEachChild` | transformers/tokenizer.ts:113 | Visiting the children agrees with `Scanner.VisitChildren`. The node keeps its kind and its text, and its children are replaced by their visited versions. |
| `Tokenizer.Transformer.VisitNodes` | transformers/tokenizer.ts:113 | The loop over a child list agrees with `Scanner.VisitAll`: children are visited left to right, and the first fault stops the loop. |
| `Tokenizer.Transformer.VisitProperties` | transformers/tokenizer.ts:113 | The loop over an object literal's members agrees with `Scanner.VisitProps`. |
| `Tokenizer.TransformSourceFile` | transformers/tokenizer.ts:42-116 | One run on a file with a fresh closure gives `Scanner.Transform`. |
| `Scanner.Assign` | transformers/tokenizer.ts:82-86 | One loop iteration: a property called `query` or `token` overwrites that field and any other name is ignored. No contract of its own; `ScanPropsFindsLast` describes its use. |
| `Scanner.ScanProps` | transformers/tokenizer.ts:76-87 | The property loop, property by property, aborting on a property without a value text. No contract of its own; `ScanPropsFindsLast` says what it computes and `Tokenizer.Transformer.ScanProperties` is proved equal to it. |
| `Scanner.LastNamed` | transformers/tokenizer.ts:76-87 | Reference definition of the value the loop keeps for a name, independent of the loop's order of updates. `LastNamedIsLast` characterises it. |
| `Scanner.Visit` | transformers/tokenizer.ts:48-114 | The visitor: the credentials gate, the scope-literal branch, otherwise `Enter` then the children. No contract of its own; described by `ScopeLiteralOutcome`, `VisitKeepsInv`, `VisitOnlyReplacesLiterals`, `UnscopedNodeUnchanged` and `DisabledIsIdentity`, and `Tokenizer.Transformer.Visitor` is proved equal to it. |
| `Scanner.VisitChildren` | transformers/tokenizer.ts:113 | `ts.visitEachChild`: the node is rebuilt with its kind and text and its visited children. Described by `ChildrenOnlyReplaceLiterals`; `Tokenizer.Transformer.VisitEachChild` is proved equal to it. |
| `Scanner.VisitAll` | transformers/tokenizer.ts:113 | A child list visited left to right with the state threaded through; the first fault stops it. Described by `ListOnlyReplacesLiterals`; `Tokenizer.Transformer.VisitNodes` is proved equal to it. |
| `Scanner.VisitProps` | transformers/tokenizer.ts:113 | The members of an object literal that is not a scope literal, each rebuilt with its visited children. Described by `PropsOnlyReplaceLiterals`; `Tokenizer.Transformer.VisitProperties` is proved equal to it. |
| `Scanner.Transform` | transformers/tokenizer.ts:115 | One file from the start state. Described by `TransformOnlyReplacesLiterals`, `FileWithoutScopesUnchanged` and `DisabledIsIdentity`. |
| `ScannerProofs.InitialSatisfiesInv` | transformers/tokenizer.ts:44-47 | The start state of each file is `Unknown` and satisfies the invariant. |
| `ScannerProofs.VisitKeepsInv` | transformers/tokenizer.ts:35-40 | Every visit keeps the invariant. `QSObjectLiteralExpression` is never entered. While a declaration is being matched, no query or token is left over from an earlier literal. |
| `ScannerProofs.VisitChildrenKeepsInv` | transformers/tokenizer.ts:113 | Visiting a node's children keeps the same invariant. |
| `ScannerProofs.VisitAllKeepsInv` | transformers/tokenizer.ts:113 | Visiting a list of nodes keeps the same invariant. |
| `ScannerProofs.VisitPropsKeepsInv` | transformers/tokenizer.ts:113 | Visiting an object literal's members keeps the same invariant. |
| `ScannerProofs.DeclarationForgetsHistory` | transformers/tokenizer.ts:50-58 | With signing on, the result of visiting a declaration does not depend on the state before it. |
| `ScannerProofs.DisabledIsIdentity` | transformers/tokenizer.ts:49 | With either credential missing, the file comes back unchanged. |
| `ScannerProofs.LastNamedIsLast` | transformers/tokenizer.ts:76-87 | `LastNamed` is absent exactly when no property has the name. Otherwise it is the stripped value of a property with that name that no later property shares. |
| `ScannerProofs.ScanPropsFindsLast` | transformers/tokenizer.ts:76-87 | The property loop fails with `MissingInitializer` exactly when some property lacks a value text. Otherwise `query` and `token` are the last values of those names, each keeping its previous value when the name is absent. Other names are ignored. |
| `ScannerProofs.LastNamedSkipsOtherNames` | transformers/tokenizer.ts:82-86 | Inserting a property with a different name anywhere does not change the value found for a name. |
| `ScannerProofs.ReplacementReadsBack` | transformers/tokenizer.ts:99-102 | Scanning the replacement literal again yields exactly its query and its token. |
| `ScannerProofs.ScopeLiteralOutcome` | transformers/tokenizer.ts:73-111 | What a scope literal becomes: a property without a value text aborts the pass; no `query` leaves the literal unchanged; otherwise the result is `{ query, token }` from the last query and the signer's token, or a signing fault. A found query is never left unrewritten. |
| `ScannerProofs.OtherPropertiesIgnored` | transformers/tokenizer.ts:76-102 | For a literal with a query, a `token` property or any other non-`query` property changes nothing, wherever it stands and whatever its value. |
| `ScannerProofs.UnscopedNodeUnchanged` | transformers/tokenizer.ts:60-72 | Outside a scope, a subtree without a `QueryScope` type comes back unchanged, and the state never becomes `QSTypeReference`. |
| `ScannerProofs.UnscopedChildrenUnchanged` | transformers/tokenizer.ts:113 | The same holds for visiting a node's children. |
| `ScannerProofs.UnscopedListUnchanged` | transformers/tokenizer.ts:113 | The same holds for a list of nodes. |
| `ScannerProofs.UnscopedPropsUnchanged` | transformers/tokenizer.ts:113 | The same holds for an object literal's members. |
| `ScannerProofs.FileWithoutScopesUnchanged` | transformers/tokenizer.ts:115 | A file that never names the type `QueryScope` is returned unchanged. |
| `ScannerProofs.VisitOnlyReplacesLiterals` | transformers/tokenizer.ts:48-114 | Whatever the state, a visited node is the original with at most some object literals replaced by `{ query, token }` literals: every other node keeps its kind and text, every member its name and value text, and children stay in order. |
| `ScannerProofs.ChildrenOnlyReplaceLiterals` | transformers/tokenizer.ts:113 | The same holds for visiting a node's children. |
| `ScannerProofs.ListOnlyReplacesLiterals` | transformers/tokenizer.ts:113 | The same holds, position by position, for a list of nodes. |
| `ScannerProofs.PropsOnlyReplaceLiterals` | transformers/tokenizer.ts:113 | The same holds for an object literal's members. |
| `ScannerProofs.OnlyLiteralsReplacedReflexive` | transformers/tokenizer.ts:49 | A node returned as it is satisfies the relation. |
| `ScannerProofs.AllOnlyLiteralsReplacedReflexive` | transformers/tokenizer.ts:49 | The same for a list of nodes. |
| `ScannerProofs.TransformOnlyReplacesLiterals` | transformers/tokenizer.ts:115 | For any file, a transformed file differs from the original only where object literals became `{ query, token }` literals. |
| `ScannerProofs.ScopeDeclarationSigned` | tests/src/01.base.tests.ts:14-18 | `const name: QueryScope = { query: \`text\` }` becomes `{ query: text, token }`, with the signer's token for exactly `text`. Interpolations in `text` stay unexpanded. |
| `ScannerProofs.PartDeclarationUntouched` | tests/src/01.base.tests.ts:7 | A `QueryScopePart` declaration is returned unchanged. |

## Left out

- Cryptography. HMAC-SHA256 (`createHmac`) and RS256 signing (`jsonwebtoken`'s
  `sign`) are the function values `hmacSha256Hex` and `signRs256` of `Config`.
  A library exception is `None`.
- Process environment (tokenizer.ts:5-7). The client id and private key are
  `Config` fields. The issuer is not modelled, because the live signer never
  uses it.
- Clock. `iat` is the single reading `Config.issuedAt` for the whole pass. In
  the program, each token takes the time at which it is signed.
- TypeScript compiler API. `ts.visitEachChild`, `ts.factory`, `getText()` and
  `getChildAt(2)` are replaced by the `Node`/`Prop` datatypes. Their text
  fields stand for `getText()`, and their child lists stand for what
  `visitEachChild` visits. Node kinds the visitor does not test are
  `Other`, or `StrLit` for a string literal; the model uses `StrLit` only as
  a child of the properties of the replacement literal.
- Printing. The printer escapes special characters in a created string
  literal. The model gives a created literal the text `"value"` without that
  escaping.
- Tokenizer.Transformer.Visitor: after a fault, the fields are not
  described, because the pass has ended.
- `variableId` is kept up to date but only appears in logging, which is left
  out along with the `console.log` comments.
- The commented-out async signer (tokenizer.ts:13-23) is dead code.
- Part resolution, symbol table and part removal do not occur in this
  transformer's code. The two test files assert them against compiled
  output, so they serve only to corroborate the scope rewrite.
