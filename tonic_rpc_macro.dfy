/**
 * The `tonic_rpc` attribute macro: it turns a trait declaration into the
 * method and service descriptors that the `tonic_build` stub generator
 * consumes, and emits one pair of type aliases per method ahead of the
 * generated client and server code.
 */
module TonicRpcMacro {
  import opened Wrappers
  import opened Syntax

  /** The codec both descriptor impls hand to the stub generator. */
  const CODEC_PATH: string := "tonic_rpc::json_codec::MyCodec"

  /** The panic message of a rejected method signature. */
  const INVALID_RPC_ARGUMENT_TYPE: string := "Invalid rpc argument type"

  /** The prefix of every synthesized alias identifier. */
  const GENERATED_PREFIX: string := "__tonic_generated_"

  /** The attribute that marks a method as server-streaming. */
  const SERVER_STREAMING: string := "server_streaming"

  /** A panic raised while the macro expands; it aborts the whole expansion. */
  datatype Panic = Panic(message: string)

  // ---------------------------------------------------------------------
  // Descriptors and their accessor impls
  // ---------------------------------------------------------------------

  /** The method descriptor built for one trait method. */
  datatype MyMethod = MyMethod(
    name: string,
    identifier: string,
    clientStreaming: bool,
    serverStreaming: bool,
    request: Tokens,
    response: Tokens,
    generatedRequest: string,
    generatedResponse: string)
  {
    function Name(): string { name }
    function Identifier(): string { identifier }
    function Comment(): seq<string> { [] }
    function ClientStreaming(): bool { clientStreaming }
    function ServerStreaming(): bool { serverStreaming }
    function CodecPath(): string { CODEC_PATH }

    /**
     * The request and response type names the generated code uses: the
     * synthesized aliases, reached from the generated modules through
     * `super::`. The proto path argument is ignored.
     */
    function RequestResponseName(protoPath: string): (string, string)
    {
      ("super::" + generatedRequest, "super::" + generatedResponse)
    }
  }

  /** The service descriptor built for one trait. */
  datatype MyService = MyService(
    name: string,
    package: string,
    identifier: string,
    methods: seq<MyMethod>)
  {
    function Name(): string { name }
    function Package(): string { package }
    function Identifier(): string { identifier }
    function Comment(): seq<string> { [] }
    function Methods(): seq<MyMethod> { methods }
    function CodecPath(): string { CODEC_PATH }
  }

  // ---------------------------------------------------------------------
  // Synthesized alias names
  // ---------------------------------------------------------------------

  function RequestAlias(traitName: string, name: string): string
  {
    GENERATED_PREFIX + traitName + "_" + name + "_request"
  }

  function ResponseAlias(traitName: string, name: string): string
  {
    GENERATED_PREFIX + traitName + "_" + name + "_response"
  }

  /** Within one trait, distinct method names give distinct request aliases. */
  lemma {:induction false} RequestAliasInjective(traitName: string, n1: string, n2: string)
    requires RequestAlias(traitName, n1) == RequestAlias(traitName, n2)
    ensures n1 == n2
  {
    var k := |GENERATED_PREFIX + traitName + "_"|;
    var a1, a2 := RequestAlias(traitName, n1), RequestAlias(traitName, n2);
    assert |n1| == |a1| - k - 8 == |n2|;
    assert a1[k..k + |n1|] == n1;
    assert a2[k..k + |n2|] == n2;
  }

  /** Within one trait, distinct method names give distinct response aliases. */
  lemma {:induction false} ResponseAliasInjective(traitName: string, n1: string, n2: string)
    requires ResponseAlias(traitName, n1) == ResponseAlias(traitName, n2)
    ensures n1 == n2
  {
    var k := |GENERATED_PREFIX + traitName + "_"|;
    var a1, a2 := ResponseAlias(traitName, n1), ResponseAlias(traitName, n2);
    assert |n1| == |a1| - k - 9 == |n2|;
    assert a1[k..k + |n1|] == n1;
    assert a2[k..k + |n2|] == n2;
  }

  /** No request alias is a response alias, whatever the trait and method names. */
  lemma {:induction false} RequestAliasIsNeverResponseAlias(t1: string, n1: string, t2: string, n2: string)
    ensures RequestAlias(t1, n1) != ResponseAlias(t2, n2)
  {
    var a1, a2 := RequestAlias(t1, n1), ResponseAlias(t2, n2);
    assert a1[|a1| - 1] == 't';
    assert a2[|a2| - 1] == 'e';
  }

  /** The aliases of method `add` of trait `Calc`, spelled out. */
  lemma CalcAddAliases()
    ensures RequestAlias("Calc", "add") == "__tonic_generated_Calc_add_request"
    ensures ResponseAlias("Calc", "add") == "__tonic_generated_Calc_add_response"
  {
  }

  /**
   * The naming scheme does not separate trait and method names: a trait
   * `A_b` with method `c` and a trait `A` with method `b_c` get the same
   * aliases, so two such traits cannot share one scope.
   */
  lemma AliasesCollideAcrossTraits()
    ensures RequestAlias("A_b", "c") == RequestAlias("A", "b_c")
    ensures ResponseAlias("A_b", "c") == ResponseAlias("A", "b_c")
  {
  }

  // ---------------------------------------------------------------------
  // make_method
  // ---------------------------------------------------------------------

  /** `attrs.iter().any(|attr| attr.path.is_ident("server_streaming"))`. */
  function IsServerStreaming(attrs: seq<Attribute>): (b: bool)
    ensures b <==> exists i :: 0 <= i < |attrs| && IsIdent(attrs[i].path, SERVER_STREAMING)
  {
    if attrs == [] then false
    else IsIdent(attrs[0].path, SERVER_STREAMING) || IsServerStreaming(attrs[1..])
  }

  /** The signature shape the macro accepts: exactly `fn f(x: T)`, no receiver, no trailing comma. */
  predicate AcceptedInputs(inputs: seq<ArgPair>)
  {
    |inputs| == 1 && inputs[0].End? && inputs[0].arg.Typed?
  }

  /** Normalises one trait method into its descriptor, or panics on a bad parameter list. */
  function MakeMethod(m: TraitItemMethod, traitName: string): (r: Result<MyMethod, Panic>)
    // the arity check
    ensures |m.inputs| != 1 ==> r == Err(Panic(INVALID_RPC_ARGUMENT_TYPE))
    // the shape check on the one parameter
    ensures |m.inputs| == 1 && (m.inputs[0].Punctuated? || m.inputs[0].arg.Receiver?) ==>
              r == Err(Panic(INVALID_RPC_ARGUMENT_TYPE))
    ensures r.Ok? <==> AcceptedInputs(m.inputs)
    ensures r.Err? ==> r.error == Panic(INVALID_RPC_ARGUMENT_TYPE)
    // the request is the type of the one parameter
    ensures r.Ok? ==> r.value.request.TypeTokens? && m.inputs == [End(Typed(r.value.request.ty))]
    ensures r.Ok? ==>
              && r.value.Name() == m.ident
              && r.value.Identifier() == m.ident
              && r.value.Comment() == []
    // streaming flags
    ensures r.Ok? ==> !r.value.ClientStreaming()
    ensures r.Ok? ==>
              (r.value.ServerStreaming() <==>
                 exists i :: 0 <= i < |m.attrs| && IsIdent(m.attrs[i].path, SERVER_STREAMING))
    // the response: the declared return type, or the string literal "()"
    ensures r.Ok? && m.output.Type? ==> r.value.response == TypeTokens(m.output.ty)
    ensures r.Ok? && m.output.Default? ==> r.value.response == StrLit("()")
    // the synthesized aliases
    ensures r.Ok? ==>
              && r.value.generatedRequest == RequestAlias(traitName, m.ident)
              && r.value.generatedResponse == ResponseAlias(traitName, m.ident)
  {
    var name := m.ident;
    var serverStreaming := IsServerStreaming(m.attrs);
    if |m.inputs| != 1 then
      Err(Panic(INVALID_RPC_ARGUMENT_TYPE))
    else
      match m.inputs[0]
      case End(Typed(ty)) =>
        var response := match m.output
          case Default => StrLit("()")
          case Type(rt) => TypeTokens(rt);
        Ok(MyMethod(
          name := name,
          identifier := name,
          clientStreaming := false,
          serverStreaming := serverStreaming,
          request := TypeTokens(ty),
          response := response,
          generatedRequest := RequestAlias(traitName, name),
          generatedResponse := ResponseAlias(traitName, name)))
      case _ =>
        Err(Panic(INVALID_RPC_ARGUMENT_TYPE))
  }

  // ---------------------------------------------------------------------
  // Service assembly
  // ---------------------------------------------------------------------

  /** The method items of a trait body, in declaration order. */
  function MethodItems(items: seq<TraitItem>): (ms: seq<TraitItemMethod>)
    ensures |ms| <= |items|
    ensures forall m :: m in ms <==> Method(m) in items
  {
    if items == [] then []
    else match items[0]
      case Method(m) => [m] + MethodItems(items[1..])
      case Other => MethodItems(items[1..])
  }

  /**
   * Selecting method items distributes over concatenation: the methods of
   * `a + b` are those of `a` followed by those of `b`, so the selection
   * keeps declaration order.
   */
  lemma {:induction false} MethodItemsAppend(a: seq<TraitItem>, b: seq<TraitItem>)
    ensures MethodItems(a + b) == MethodItems(a) + MethodItems(b)
  {
    if a == [] {
      assert a + b == b;
    } else {
      assert (a + b)[1..] == a[1..] + b;
      MethodItemsAppend(a[1..], b);
    }
  }

  /**
   * `filter_map(make_method).collect()`: descriptors of the method items in
   * declaration order; the first rejected method aborts the whole list.
   */
  function MakeMethods(items: seq<TraitItem>, traitName: string): (r: Result<seq<MyMethod>, Panic>)
    ensures r.Ok? <==>
              forall i :: 0 <= i < |items| && items[i].Method? ==> AcceptedInputs(items[i].item.inputs)
    ensures r.Err? ==> r.error == Panic(INVALID_RPC_ARGUMENT_TYPE)
    ensures r.Ok? ==> |r.value| == |MethodItems(items)|
  {
    if items == [] then Ok([])
    else
      var rest := MakeMethods(items[1..], traitName);
      assert forall i :: 1 <= i < |items| ==> items[i] == items[1..][i - 1];
      match items[0]
      case Other => rest
      case Method(m) =>
        match MakeMethod(m, traitName)
        case Err(e) => Err(e)
        case Ok(mm) =>
          match rest
          case Err(e) => Err(e)
          case Ok(mms) => Ok([mm] + mms)
  }

  /** On success, the k-th descriptor is `make_method` of the k-th method item. */
  lemma {:induction false} MakeMethodsInOrder(items: seq<TraitItem>, traitName: string, k: nat)
    requires MakeMethods(items, traitName).Ok?
    requires k < |MethodItems(items)|
    ensures MakeMethod(MethodItems(items)[k], traitName) == Ok(MakeMethods(items, traitName).value[k])
  {
    match items[0]
    case Other =>
      MakeMethodsInOrder(items[1..], traitName, k);
    case Method(m) =>
      if k > 0 {
        MakeMethodsInOrder(items[1..], traitName, k - 1);
      }
  }

  /** The service of a trait: name, package and identifier are all the trait name. */
  function BuildService(t: ItemTrait): (r: Result<MyService, Panic>)
    ensures r.Ok? <==>
              forall i :: 0 <= i < |t.items| && t.items[i].Method? ==> AcceptedInputs(t.items[i].item.inputs)
    ensures r.Err? ==> r.error == Panic(INVALID_RPC_ARGUMENT_TYPE)
    ensures r.Ok? ==>
              && r.value.Name() == t.ident
              && r.value.Package() == t.ident
              && r.value.Identifier() == t.ident
              && r.value.Comment() == []
              && |r.value.Methods()| == |MethodItems(t.items)|
  {
    match MakeMethods(t.items, t.ident)
    case Err(e) => Err(e)
    case Ok(methods) =>
      Ok(MyService(name := t.ident, package := t.ident, identifier := t.ident, methods := methods))
  }

  /**
   * Each descriptor of the service is the one `make_method` builds for the
   * method item at the same position, under the trait's name.
   */
  lemma ServiceMethodsFollowDeclarations(t: ItemTrait, k: nat)
    requires BuildService(t).Ok?
    requires k < |MethodItems(t.items)|
    ensures k < |BuildService(t).value.Methods()|
    ensures MakeMethod(MethodItems(t.items)[k], t.ident) == Ok(BuildService(t).value.Methods()[k])
  {
    MakeMethodsInOrder(t.items, t.ident, k);
  }

  /**
   * When the trait's method names are pairwise distinct, so are the
   * service's request aliases and its response aliases, and no request
   * alias is a response alias.
   */
  lemma ServiceAliasesDistinct(t: ItemTrait, j: nat, k: nat)
    requires BuildService(t).Ok?
    requires j < |MethodItems(t.items)| && k < |MethodItems(t.items)|
    requires j != k ==> MethodItems(t.items)[j].ident != MethodItems(t.items)[k].ident
    ensures var ms := BuildService(t).value.Methods();
            && (j != k ==> ms[j].generatedRequest != ms[k].generatedRequest)
            && (j != k ==> ms[j].generatedResponse != ms[k].generatedResponse)
            && ms[j].generatedRequest != ms[k].generatedResponse
  {
    var items := MethodItems(t.items);
    ServiceMethodsFollowDeclarations(t, j);
    ServiceMethodsFollowDeclarations(t, k);
    if j != k {
      if RequestAlias(t.ident, items[j].ident) == RequestAlias(t.ident, items[k].ident) {
        RequestAliasInjective(t.ident, items[j].ident, items[k].ident);
      }
      if ResponseAlias(t.ident, items[j].ident) == ResponseAlias(t.ident, items[k].ident) {
        ResponseAliasInjective(t.ident, items[j].ident, items[k].ident);
      }
    }
    RequestAliasIsNeverResponseAlias(t.ident, items[j].ident, t.ident, items[k].ident);
  }

  // ---------------------------------------------------------------------
  // Emission
  // ---------------------------------------------------------------------

  /**
   * One piece of the macro's output. The stub generator is not modelled:
   * its client and server code are represented by a record of the service
   * descriptor and proto path it was called with.
   */
  datatype OutputItem =
    | TypeAlias(aliasName: string, target: Tokens)
    | ClientCode(service: MyService, protoPath: string)
    | ServerCode(service: MyService, protoPath: string)

  /** `type request = ...; type response = ...;` for each method, in method order. */
  function AliasDecls(methods: seq<MyMethod>): (out: seq<OutputItem>)
    ensures |out| == 2 * |methods|
    ensures forall j :: 0 <= j < |out| ==> out[j].TypeAlias?
    ensures forall k :: 0 <= k < |methods| ==>
              && out[2 * k] == TypeAlias(methods[k].generatedRequest, methods[k].request)
              && out[2 * k + 1] == TypeAlias(methods[k].generatedResponse, methods[k].response)
  {
    if methods == [] then []
    else
      var m := methods[0];
      [TypeAlias(m.generatedRequest, m.request), TypeAlias(m.generatedResponse, m.response)]
        + AliasDecls(methods[1..])
  }

  /** The aliases, then the client code, then the server code. */
  function Emit(service: MyService): (out: seq<OutputItem>)
    ensures |out| == 2 * |service.methods| + 2
    ensures forall j :: 0 <= j < |out| - 2 ==> out[j].TypeAlias?
    ensures out[..2 * |service.methods|] == AliasDecls(service.methods)
    ensures out[|out| - 2] == ClientCode(service, "")
    ensures out[|out| - 1] == ServerCode(service, "")
  {
    AliasDecls(service.methods) + [ClientCode(service, ""), ServerCode(service, "")]
  }

  /**
   * Every type name the generated code asks for through
   * `request_response_name` is `super::` followed by an alias that the
   * output declares, bound to that method's request or response tokens.
   */
  lemma ReferencedAliasesDeclared(service: MyService, k: nat, protoPath: string)
    requires k < |service.methods|
    ensures var (req, resp) := service.methods[k].RequestResponseName(protoPath);
            var out := Emit(service);
            && req[..7] == "super::" && resp[..7] == "super::"
            && TypeAlias(req[7..], service.methods[k].request) in out
            && TypeAlias(resp[7..], service.methods[k].response) in out
  {
  }

  // ---------------------------------------------------------------------
  // The macro
  // ---------------------------------------------------------------------

  /**
   * The attribute macro on an already parsed trait. The codec selector in
   * `attributes` is ignored: the codec is always CODEC_PATH.
   */
  function TonicRpc(attributes: seq<string>, item: ItemTrait): (r: Result<seq<OutputItem>, Panic>)
    ensures r.Ok? <==> BuildService(item).Ok?
    ensures r.Err? ==> r.error == Panic(INVALID_RPC_ARGUMENT_TYPE)
  {
    match BuildService(item)
    case Err(e) => Err(e)
    case Ok(service) => Ok(Emit(service))
  }

  /**
   * The whole expansion, stated in terms of the trait: it succeeds exactly
   * when every method has one typed parameter; its output is, per method
   * in declaration order, the request alias bound to the parameter type and
   * the response alias bound to the return type (or the literal "()"),
   * followed by the client code and the server code of the trait's service.
   */
  lemma TonicRpcExpansion(attributes: seq<string>, item: ItemTrait)
    ensures TonicRpc(attributes, item).Ok? <==>
              forall i :: 0 <= i < |item.items| && item.items[i].Method? ==>
                AcceptedInputs(item.items[i].item.inputs)
    ensures TonicRpc(attributes, item).Ok? ==>
              var out := TonicRpc(attributes, item).value;
              var ms := MethodItems(item.items);
              && |out| == 2 * |ms| + 2
              && out[|out| - 2] == ClientCode(BuildService(item).value, "")
              && out[|out| - 1] == ServerCode(BuildService(item).value, "")
              && forall k :: 0 <= k < |ms| ==>
                   && AcceptedInputs(ms[k].inputs)
                   && out[2 * k] == TypeAlias(RequestAlias(item.ident, ms[k].ident), TypeTokens(ms[k].inputs[0].arg.ty))
                   && out[2 * k + 1] == TypeAlias(ResponseAlias(item.ident, ms[k].ident),
                                                  if ms[k].output.Default? then StrLit("()") else TypeTokens(ms[k].output.ty))
  {
    if TonicRpc(attributes, item).Ok? {
      var ms := MethodItems(item.items);
      forall k | 0 <= k < |ms|
        ensures MakeMethod(ms[k], item.ident) == Ok(BuildService(item).value.Methods()[k])
      {
        ServiceMethodsFollowDeclarations(item, k);
      }
    }
  }

  /** The example of the crate's documentation: `trait Increment { fn increment(arg: i32) -> i32; }`. */
  lemma IncrementExample()
    ensures var m := TraitItemMethod([], "increment", [End(Typed("i32"))], Type("i32"));
            var t := ItemTrait("Increment", [Method(m)]);
            var d := MyMethod("increment", "increment", false, false, TypeTokens("i32"), TypeTokens("i32"),
                              RequestAlias("Increment", "increment"), ResponseAlias("Increment", "increment"));
            var s := MyService("Increment", "Increment", "Increment", [d]);
            TonicRpc(["json"], t) == Ok([
              TypeAlias(RequestAlias("Increment", "increment"), TypeTokens("i32")),
              TypeAlias(ResponseAlias("Increment", "increment"), TypeTokens("i32")),
              ClientCode(s, ""),
              ServerCode(s, "")])
  {
    var m := TraitItemMethod([], "increment", [End(Typed("i32"))], Type("i32"));
    var t := ItemTrait("Increment", [Method(m)]);
    var d := MyMethod("increment", "increment", false, false, TypeTokens("i32"), TypeTokens("i32"),
                      RequestAlias("Increment", "increment"), ResponseAlias("Increment", "increment"));
    var s := MyService("Increment", "Increment", "Increment", [d]);
    assert MethodItems(t.items) == [m];
    assert MakeMethod(m, "Increment") == Ok(d);
    ServiceMethodsFollowDeclarations(t, 0);
    assert BuildService(t).value.methods == [d];
    assert BuildService(t) == Ok(s);
    var out := Emit(s);
    assert out == [out[0], out[1], out[2], out[3]];
  }
}
