/** The process-wide writer registry (qlog.go lines 39-59): a map from a
    writer-kind name to the factory that builds writers of that kind. */
module Registry {
  import opened Wrappers

  /** A writer factory, known only by its identity. Writers are abstract: a
      factory call yields a fresh writer whose only observable behaviour is the
      sequence of lifecycle and write calls it receives. */
  datatype Factory = Factory(id: nat)

  type Registry = map<string, Factory>

  /** The two fatal configuration errors `Register` panics with; each stands
      for its panic, whose text is not modelled. */
  datatype RegisterError = NilFactory | Duplicate(name: string)

  /** `Register(name, factory)`; a nil factory is `None`. The nil check comes
      first, so a nil factory under a taken name reports `NilFactory`. */
  function Register(reg: Registry, name: string, factory: Option<Factory>): (r: Result<Registry, RegisterError>)
    ensures factory.None? ==> r == Failure(NilFactory)
    ensures factory.Some? && name in reg ==> r == Failure(Duplicate(name))
    ensures r.Success? <==> factory.Some? && name !in reg
    ensures r.Success? ==> r.value.Keys == reg.Keys + {name}
    ensures r.Success? ==> r.value[name] == factory.value
    ensures r.Success? ==> forall n :: n in reg ==> r.value[n] == reg[n]
  {
    if factory.None? then Failure(NilFactory)
    else if name in reg then Failure(Duplicate(name))
    else Success(reg[name := factory.value])
  }

  /** Writers self-register in any order: two registrations under different
      names give the same registry whichever runs first. */
  lemma RegisterCommutes(reg: Registry, a: string, fa: Factory, b: string, fb: Factory)
    requires a != b
    requires Register(reg, a, Some(fa)).Success?
    requires Register(reg, b, Some(fb)).Success?
    ensures Register(Register(reg, a, Some(fa)).value, b, Some(fb)).Success?
    ensures Register(Register(reg, b, Some(fb)).value, a, Some(fa)).Success?
    ensures Register(Register(reg, a, Some(fa)).value, b, Some(fb)).value
         == Register(Register(reg, b, Some(fb)).value, a, Some(fa)).value
  {
  }

  /** Once a name is registered, registering it again always fails. */
  lemma RegisterTwiceFails(reg: Registry, name: string, f: Factory, g: Option<Factory>)
    requires Register(reg, name, Some(f)).Success?
    ensures Register(Register(reg, name, Some(f)).value, name, g).Failure?
  {
  }
}
