# tonic-rpc macro, modelled in Dafny

`tonic-rpc` lets a Rust developer declare a gRPC service as an ordinary trait.
The attribute macro `#[tonic_rpc]` reads the trait. It builds the method and
service descriptors that the `tonic_build` stub generator consumes. Its output
is, in order:

1. one pair of type aliases per method;
2. the client code that `tonic_build` generates;
3. the server code that `tonic_build` generates.

This project models that macro (`tonic-rpc-macro/src/lib.rs`) as pure Dafny
functions over a small abstract syntax tree. Lemmas state what the expansion
promises.

Files:

- `wrappers.dfy`: the `Result` type. A panic during expansion becomes an `Err`.
- `syntax.dfy`: the part of the parsed trait the macro looks at. This covers
  attributes with their paths, the punctuated parameter list, the return type
  and trait items. Type expressions stay opaque token text. The emitted
  token streams are type tokens or a string-literal token.
- `tonic_rpc_macro.dfy`: the following parts of the macro:
  - the descriptors `MyMethod` and `MyService` with their accessor impls;
  - the alias naming scheme;
  - `make_method` (`MakeMethod`);
  - service assembly (`MakeMethods`, `BuildService`);
  - alias emission (`AliasDecls`, `Emit`);
  - the macro itself (`TonicRpc`).

Points where the model follows the code rather than the prose around it:

- The synthesized aliases are spelled `__tonic_generated_<Trait>_<method>_request`
  and `..._response`.
- Only `#[server_streaming]` is recognised. `client_streaming` is always
  false. The crate documentation (`tonic-rpc/src/lib.rs:122-123`,
  `154-162`) describes a `#[client_streaming]` attribute, but the macro code
  never reads it.
- A method must have exactly one parameter. That parameter must be typed (not
  `self`) and must have no trailing comma. Otherwise expansion panics with
  "Invalid rpc argument type". The documentation's tupling of several
  arguments (`tonic-rpc/src/lib.rs:136-143`) is not implemented.
- A method without a return type gets the response token `"()"`. This is a
  string literal, not the unit type `()`. The model keeps it as
  `StrLit("()")`, so its response alias is bound to a string literal.
  Such a method therefore emits `type __tonic_generated_T_m_response = "()";`.
  Read as Rust text, this is not a valid declaration, because a string literal
  is not a type. Nothing was compiled to confirm this.
- The alias scheme does not separate the trait name from the method name.
  Within one trait, different method names give different aliases (proved).
  Across traits, names can collide: trait `A_b` with method `c` and trait `A`
  with method `b_c` get the same aliases (`AliasesCollideAcrossTraits`).

All members are functions, so the same input always gives the same output.

## Model

| member | source | states |
|---|---|---|
| `TonicRpcMacro.IsServerStreaming` | tonic-rpc-macro/src/lib.rs:79-82 | true exactly when some attribute's path is the bare identifier `server_streaming` |
| `TonicRpcMacro.MakeMethod` | tonic-rpc-macro/src/lib.rs:77-113 | fails with the "Invalid rpc argument type" panic when the parameter count is not one, when the one parameter is a receiver, or when it has a trailing comma; succeeds exactly when the parameter list is one typed parameter, and then: the request is that parameter's type; name and identifier are the method identifier; the comment is empty; client streaming is false; server streaming holds iff a `server_streaming` attribute is present; the response is the return type, or the literal `"()"` when there is none; the aliases are the request and response aliases of trait and method |
| `TonicRpcMacro.RequestAliasInjective` | tonic-rpc-macro/src/lib.rs:102-106 | for one trait name, equal request aliases imply equal method names |
| `TonicRpcMacro.ResponseAliasInjective` | tonic-rpc-macro/src/lib.rs:107-111 | for one trait name, equal response aliases imply equal method names |
| `TonicRpcMacro.RequestAliasIsNeverResponseAlias` | tonic-rpc-macro/src/lib.rs:102-111 | no request alias equals any response alias, for any trait and method names |
| `TonicRpcMacro.CalcAddAliases` | tonic-rpc-macro/src/lib.rs:102-111 | the aliases of `Calc::add` are `__tonic_generated_Calc_add_request` and `__tonic_generated_Calc_add_response` |
| `TonicRpcMacro.AliasesCollideAcrossTraits` | tonic-rpc-macro/src/lib.rs:102-111 | two different trait/method pairs can produce the same request and response aliases |
| `TonicRpcMacro.MethodItems` | tonic-rpc-macro/src/lib.rs:119-125 | selects the method items of a trait body: a method is in the result exactly when the body holds it as a method item, and the result is no longer than the body |
| `TonicRpcMacro.MethodItemsAppend` | tonic-rpc-macro/src/lib.rs:119-125 | the methods selected from `a + b` are those selected from `a` followed by those selected from `b`, so the selection keeps declaration order |
| `TonicRpcMacro.MakeMethods` | tonic-rpc-macro/src/lib.rs:119-126 | succeeds exactly when every method item has an accepted parameter list, with non-method items ignored; any failure is the argument-type panic; on success there is one descriptor per method item |
| `TonicRpcMacro.MakeMethodsInOrder` | tonic-rpc-macro/src/lib.rs:119-126 | the k-th descriptor is what `make_method` builds from the k-th method item in declaration order |
| `TonicRpcMacro.BuildService` | tonic-rpc-macro/src/lib.rs:117-132 | succeeds exactly when every method item is accepted; the service's name, package and identifier are all the trait name, its comment is empty, and it has one method per method item |
| `TonicRpcMacro.ServiceMethodsFollowDeclarations` | tonic-rpc-macro/src/lib.rs:119-132 | each method of the built service is the `make_method` result for the method item at the same position, under the trait name |
| `TonicRpcMacro.ServiceAliasesDistinct` | tonic-rpc-macro/src/lib.rs:102-126 | when the trait's method names are distinct, the service's request aliases are pairwise distinct, its response aliases are pairwise distinct, and no request alias equals a response alias |
| `TonicRpcMacro.AliasDecls` | tonic-rpc-macro/src/lib.rs:135-145 | two type aliases per method, in method order: the request alias bound to the request tokens, then the response alias bound to the response tokens; nothing else |
| `TonicRpcMacro.Emit` | tonic-rpc-macro/src/lib.rs:133-150 | the output has 2·n+2 items for n methods: the first 2·n are exactly the alias declarations of the service's methods (`AliasDecls`), then the client code, then the server code; both code parts are generated from the service with an empty proto path |
| `TonicRpcMacro.ReferencedAliasesDeclared` | tonic-rpc-macro/src/lib.rs:38-45 | `request_response_name` returns `super::` plus a name; whatever its argument, that name is declared in the output as an alias of the method's request (or response) tokens |
| `TonicRpcMacro.TonicRpc` | tonic-rpc-macro/src/lib.rs:115-152 | the expansion succeeds exactly when the service can be built; any failure is the argument-type panic |
| `TonicRpcMacro.TonicRpcExpansion` | tonic-rpc-macro/src/lib.rs:115-152 | the expansion succeeds iff every method item has an accepted parameter list; on success it has 2·n+2 items for n method items: for the k-th method, its request alias bound to its parameter type and its response alias bound to its return type (or `"()"`), then client code and server code |
| `TonicRpcMacro.IncrementExample` | tonic-rpc/src/lib.rs:20-25 | `trait Increment { fn increment(arg: i32) -> i32; }` expands to the two `i32` aliases followed by the client and server code of the `Increment` service |

The accessor functions of `MyMethod` and `MyService` (tonic-rpc-macro/src/lib.rs:19-75)
are plain getters. Both types also expose `CodecPath()`, the fixed `CODEC_PATH`. What they return is stated through the `MakeMethod`,
`BuildService` and `ReferencedAliasesDeclared` rows above.

## Left out

- Parsing with `syn` (`parse_macro_input!`) is not modelled. The input is an
  already parsed trait, so the parse-error path is left out. Rendering with
  `quote!`/`ToTokens` is also not modelled: types are opaque token text, and
  the output is a sequence of declarations, not a token stream.
- `tonic_build::client::generate` and `tonic_build::server::generate` are a
  foreign library. The model records the service descriptor and proto path
  each one receives (`ClientCode`, `ServerCode`). It does not model the code
  they produce or any failure inside them.
- The codec: the `_attributes` argument is accepted and ignored, and
  `CODEC_PATH` is a constant. The feature-selected codec modules are not part
  of this model.
- `format_ident!` validation is not modelled. Alias names are plain string
  concatenation. The panic that `format_ident!` raises for a name that is not a
  valid identifier (for example a raw identifier `r#type` as a method name)
  is left out.
- The parameter list is a plain sequence of pairs. The model does not enforce
  syn's rule that only the last pair can lack a trailing comma, because the
  macro's decision depends only on the length and on the single pair.
- The other parts of the trait method (generics, `async`, default bodies,
  parameter patterns) are left out. The macro ignores them.
- tonic-rpc/src/lib.rs is documentation and a re-export, so it is not modelled.
  Its async client/server example performs network I/O.
