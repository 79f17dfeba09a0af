/**
 * The selectors of the webhook, whose fields are texts, as the selectors that are compiled: what validation
 * lets through is what the compilation is proved for.
 */
module SelectorLink {
  import opened Wrappers
  import W = SelectorIndex
  import opened Selectors
  import opened SelectorProofs

  /** A text that is empty or only white space stands for no field. */
  function Field(text: string): Option<Name> {
    if W.Blank(text) then None else Some(Name(text))
  }

  function MatchOf(m: W.Match): Match {
    Match(Field(m.name), Field(m.id))
  }

  function SelectorOf(s: W.Selector): Selector {
    Selector(if s.vpc.Some? then Some(MatchOf(s.vpc.value)) else None,
             seq(|s.vms|, i requires 0 <= i < |s.vms| => MatchOf(s.vms[i])))
  }

  function SelectorsOf(sel: seq<W.Selector>): seq<Selector> {
    seq(|sel|, i requires 0 <= i < |sel| => SelectorOf(sel[i]))
  }

  lemma MachinesLink(ms: seq<W.Match>, ns: seq<Match>)
    requires |ns| == |ms| && forall i :: 0 <= i < |ms| ==> ns[i] == MatchOf(ms[i])
    ensures (forall n <- ns :: NotBoth(n)) <==> (forall m <- ms :: W.NotBoth(m))
    ensures AllBlank(ns) <==> (forall m <- ms :: W.Blank(m.id) && W.Blank(m.name))
  {
    forall m <- ms ensures MatchOf(m) in ns {
      var i :| 0 <= i < |ms| && ms[i] == m;
      assert ns[i] == MatchOf(m);
    }
    forall n <- ns ensures exists m <- ms :: n == MatchOf(m) {
      var i :| 0 <= i < |ns| && ns[i] == n;
      assert ms[i] in ms;
    }
  }

  /** Validation lets a selector through exactly when it is accepted and names a VPC only where that is supported. */
  lemma SupportedIsAccepted(azure: bool, s: W.Selector)
    ensures W.Supported(azure, s) <==> Accepted(SelectorOf(s)) && (W.HasVpcName(s) ==> !azure && !s.agented)
  {
    MachinesLink(s.vms, SelectorOf(s).vms);
  }

  /** What validation lets through for AWS keeps its meaning in the queries exactly when it is expressible. */
  lemma ValidatedSelectorsAreFaithful(names: VpcNames, sel: seq<W.Selector>)
    requires (forall s <- sel :: W.Supported(false, s)) && Sane(names, SelectorsOf(sel))
    ensures Faithful(names, SelectorsOf(sel)) <==> Expressible(names, SelectorsOf(sel))
  {
    forall t <- SelectorsOf(sel) ensures Accepted(t) {
      var i :| 0 <= i < |sel| && SelectorOf(sel[i]) == t;
      SupportedIsAccepted(false, sel[i]);
    }
    AwsCompilationIsFaithful(names, SelectorsOf(sel));
  }
}
