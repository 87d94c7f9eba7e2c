/** The function a node applies to every input vector: a closed choice between
    passing the input through and a routine exported by a dynamically loaded
    library, together with the rule that selects one from the configuration. */
module FunctionDispatch {
  import opened Outcomes

  /** How the configured function is to be loaded. */
  datatype FunctionSpec = Library | Exec

  /** The strategy a node runs. A loaded library is identified by the path it was
      loaded from; `symbol` names the routine resolved in it on every call. */
  datatype Function = Echo | Library(path: string, symbol: string)

  /** The dynamic loader and the foreign code behind it, left uninterpreted:
      `loads(p)` says whether the module at `p` opens, `exports(p, s)` whether that
      module exports `s`, and `run(p, s, v)` is what the routine returns for `v`. */
  datatype Native<!S> = Native(
    loads: string -> bool,
    exports: (string, string) -> bool,
    run: (string, string, seq<S>) -> seq<S>)

  /** The function a node runs when nothing else is configured. */
  function Default(): Function
  {
    Echo
  }

  /** Selects the function from the optional spec, module path and symbol. A
      library spec reads the path first, then loads it, then reads the symbol, and
      panics at the first of these that fails; no spec falls back to the default. */
  function FromConfig<S>(spec: Option<FunctionSpec>, path: Option<string>, symbol: Option<string>,
                         native: Native<S>): (r: Result<Function>)
    ensures r == Ok(Echo) <==> spec.None?
    ensures spec == Some(Exec) ==> r == Abort(NotImplemented)
    ensures spec == Some(FunctionSpec.Library) ==>
              (r.Ok? <==> path.Some? && native.loads(path.value) && symbol.Some?)
    ensures r.Ok? && r.value.Library? ==>
              && spec == Some(FunctionSpec.Library)
              && path == Some(r.value.path)
              && symbol == Some(r.value.symbol)
    ensures spec == Some(FunctionSpec.Library) && path.None? ==> r == Abort(MissingLibraryPath)
    ensures spec == Some(FunctionSpec.Library) && path.Some? && !native.loads(path.value) ==>
              r == Abort(InvalidLibraryPath)
    ensures spec == Some(FunctionSpec.Library) && path.Some? && native.loads(path.value) && symbol.None? ==>
              r == Abort(MissingSymbol)
  {
    match spec
    case None => Ok(Default())
    case Some(Library) =>
      if path.None? then Abort(MissingLibraryPath)
      else if !native.loads(path.value) then Abort(InvalidLibraryPath)
      else if symbol.None? then Abort(MissingSymbol)
      else Ok(Function.Library(path.value, symbol.value))
    case Some(Exec) => Abort(NotImplemented)
  }

  /** Applies the function to one input vector. The library routine's symbol is
      resolved anew on every call, and a missing symbol panics. */
  function Call<S>(f: Function, native: Native<S>, input: seq<S>): (r: Result<seq<S>>)
    ensures f.Echo? ==> r == Ok(input)
    ensures f.Library? ==> (r.Ok? <==> native.exports(f.path, f.symbol))
    ensures f.Library? && r.Ok? ==> r.value == native.run(f.path, f.symbol, input)
    ensures r.Abort? ==> r.panic == SymbolNotFound
  {
    match f
    case Echo => Ok(input)
    case Library(path, symbol) =>
      if native.exports(path, symbol) then Ok(native.run(path, symbol, input))
      else Abort(SymbolNotFound)
  }

  /** The by-value calling form, which delegates to `Call`. */
  function CallOnce<S>(f: Function, native: Native<S>, input: seq<S>): Result<seq<S>>
  {
    Call(f, native, input)
  }

  /** The mutable-borrow calling form, which delegates to `Call`. */
  function CallMut<S>(f: Function, native: Native<S>, input: seq<S>): Result<seq<S>>
  {
    Call(f, native, input)
  }

  /** The three calling forms produce the same result for the same input. */
  lemma CallFormsAgree<S>(f: Function, native: Native<S>, input: seq<S>)
    ensures CallOnce(f, native, input) == CallMut(f, native, input) == Call(f, native, input)
  {
  }

  /** The default function hands back every input unchanged. */
  lemma DefaultEchoes<S>(native: Native<S>, input: seq<S>)
    ensures Default() == Echo
    ensures Call(Default(), native, input) == Ok(input)
  {
  }

  /** A function built from a library spec calls exactly the configured symbol of
      exactly the configured module, and nothing is ever passed through unchanged
      on its behalf. */
  lemma ConfiguredLibraryCallsSymbol<S>(path: string, symbol: string, native: Native<S>, input: seq<S>)
    requires native.loads(path)
    ensures FromConfig(Some(FunctionSpec.Library), Some(path), Some(symbol), native)
              == Ok(Function.Library(path, symbol))
    ensures native.exports(path, symbol) ==>
              Call(Function.Library(path, symbol), native, input) == Ok(native.run(path, symbol, input))
    ensures !native.exports(path, symbol) ==>
              Call(Function.Library(path, symbol), native, input) == Abort(SymbolNotFound)
  {
  }
}
