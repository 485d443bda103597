/**
 * The slice of the Rust syntax tree (as produced by the `syn` parser) and of
 * the token streams (as produced by `quote`) that the `tonic_rpc` attribute
 * macro inspects. Type expressions are kept as opaque token text: the macro
 * copies them and never looks inside.
 */
module Syntax {

  /** The token text of a Rust type expression, e.g. "i32" or "Vec<String>". */
  type Ty = string

  /** One segment of a path; `hasArguments` is true for `a::<T>` or `a(T)`. */
  datatype PathSegment = PathSegment(ident: string, hasArguments: bool)

  /** A path such as `server_streaming`, `::x::y` or `a::b`. */
  datatype Path = Path(leadingColon: bool, segments: seq<PathSegment>)

  /**
   * `Path::is_ident`: the path is the bare identifier `id` -- no leading
   * `::`, exactly one segment, no generic arguments.
   */
  predicate IsIdent(p: Path, id: string)
  {
    && !p.leadingColon
    && |p.segments| == 1
    && !p.segments[0].hasArguments
    && p.segments[0].ident == id
  }

  /** An outer attribute `#[path ...]` on a trait item. */
  datatype Attribute = Attribute(path: Path)

  /** A formal parameter: the receiver `self`/`&self`, or `pattern: Type`. */
  datatype FnArg = Receiver | Typed(ty: Ty)

  /**
   * One element of the comma-punctuated parameter list: `Punctuated` when a
   * comma follows it, `End` for a final element without a trailing comma.
   */
  datatype ArgPair = End(arg: FnArg) | Punctuated(arg: FnArg)

  /** The return type of a signature: absent, or `-> Type`. */
  datatype ReturnType = Default | Type(ty: Ty)

  /** A method signature inside a trait, with its attributes. */
  datatype TraitItemMethod = TraitItemMethod(
    attrs: seq<Attribute>,
    ident: string,
    inputs: seq<ArgPair>,
    output: ReturnType)

  /** An item of a trait body: a method, or anything else (const, type, macro). */
  datatype TraitItem = Method(item: TraitItemMethod) | Other

  /** A trait declaration `trait Ident { items }`. */
  datatype ItemTrait = ItemTrait(ident: string, items: seq<TraitItem>)

  /**
   * A token stream that the macro splices into its output: the tokens of a
   * type, or a single string literal token.
   */
  datatype Tokens = TypeTokens(ty: Ty) | StrLit(text: string)
}
