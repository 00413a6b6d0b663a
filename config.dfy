/** Client options (internal/pkg/proxmox/config.go). */
module Configs {

  /** The option settings a client is built from; the zero value has every option off. */
  class Config {
    var insecureSkipTLS: bool

    /** `var config Config`: Go's zero value. */
    constructor ()
      ensures !insecureSkipTLS
    {
      insecureSkipTLS := false;
    }
  }

  /** A ConfigOption: a function that updates a Config through its pointer. The type is
      exported, so besides the package's own WithInsecure a caller may pass a function of its
      own. Config has one field, so what such a function does to the Config is a function
      from the old flag to the new one. */
  datatype ConfigOption =
    | SkipTLSVerification          // the closure WithInsecure returns
    | Custom(effect: bool -> bool) // a caller's own func(*Config)
  {

    /** The insecureSkipTLS flag after this option is applied to a Config holding `insecureSkipTLS`. */
    function Effect(insecureSkipTLS: bool): bool {
      match this
      case SkipTLSVerification => true
      case Custom(f) => f(insecureSkipTLS)
    }

    /** opt(&config) */
    method Apply(c: Config)
      modifies c
      ensures c.insecureSkipTLS == Effect(old(c.insecureSkipTLS))
    {
      match this
      case SkipTLSVerification =>
        c.insecureSkipTLS := true;
      case Custom(f) =>
        c.insecureSkipTLS := f(c.insecureSkipTLS);
    }
  }

  /** WithInsecure(): the option that turns TLS certificate verification off, whatever the
      flag held before; applying it twice is the same as applying it once. */
  function WithInsecure(): (opt: ConfigOption)
    ensures forall insecureSkipTLS: bool :: opt.Effect(insecureSkipTLS)
    ensures forall insecureSkipTLS: bool :: opt.Effect(opt.Effect(insecureSkipTLS)) == opt.Effect(insecureSkipTLS)
  {
    SkipTLSVerification
  }

  /** The insecureSkipTLS flag of a zero Config after the options are applied in order. */
  function InsecureAfter(opts: seq<ConfigOption>): bool {
    if opts == [] then false else opts[|opts| - 1].Effect(InsecureAfter(opts[..|opts| - 1]))
  }

  /** An option that leaves the flag as it found it. */
  ghost predicate Neutral(opt: ConfigOption) {
    forall insecureSkipTLS: bool :: opt.Effect(insecureSkipTLS) == insecureSkipTLS
  }

  /** WithInsecure as the last option turns verification off whatever came before it. */
  lemma InsecureAfterEndingWithInsecure(opts: seq<ConfigOption>)
    ensures InsecureAfter(opts + [WithInsecure()])
  {
    assert (opts + [WithInsecure()])[..|opts|] == opts;
  }

  /** When every other option leaves the flag alone, folding the options over the zero Config
      skips TLS verification exactly when WithInsecure is among them. */
  lemma {:induction false} InsecureAfterIff(opts: seq<ConfigOption>)
    requires forall i :: 0 <= i < |opts| ==> opts[i].SkipTLSVerification? || Neutral(opts[i])
    ensures InsecureAfter(opts) <==> exists i :: 0 <= i < |opts| && opts[i].SkipTLSVerification?
  {
    if opts != [] {
      var n := |opts| - 1;
      InsecureAfterIff(opts[..n]);
      if !opts[n].SkipTLSVerification? {
        assert InsecureAfter(opts) == InsecureAfter(opts[..n]);
        if InsecureAfter(opts) {
          var i :| 0 <= i < n && opts[..n][i].SkipTLSVerification?;
          assert opts[i].SkipTLSVerification?;
        } else {
          forall i | 0 <= i < |opts| ensures !opts[i].SkipTLSVerification? {
            if i < n { assert opts[i] == opts[..n][i]; }
          }
        }
      }
    }
  }

  /** A caller's option after WithInsecure can undo it: the flag ends up false. */
  lemma ResetAfterWithInsecure()
    ensures !InsecureAfter([WithInsecure(), Custom(insecureSkipTLS => false)])
  {
    var opts := [WithInsecure(), Custom(insecureSkipTLS => false)];
    assert opts[..1] == [WithInsecure()];
  }
}
