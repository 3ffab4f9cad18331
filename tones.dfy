/** The five reply tones (`ToneType`) and their wire names. */
module Tones {
  import opened Wrappers

  datatype Tone = Professional | Friendly | Empathetic | Apologetic | Enthusiastic

  const AllTones: seq<Tone> := [Professional, Friendly, Empathetic, Apologetic, Enthusiastic]

  function ToneName(t: Tone): string {
    match t
    case Professional => "professional"
    case Friendly => "friendly"
    case Empathetic => "empathetic"
    case Apologetic => "apologetic"
    case Enthusiastic => "enthusiastic"
  }

  /** Membership test of `z.enum([...])` over the five names. */
  function ParseTone(s: string): (r: Option<Tone>)
    ensures r.Some? ==> ToneName(r.value) == s
    ensures r.None? ==> forall t :: ToneName(t) != s
  {
    if s == "professional" then Some(Professional)
    else if s == "friendly" then Some(Friendly)
    else if s == "empathetic" then Some(Empathetic)
    else if s == "apologetic" then Some(Apologetic)
    else if s == "enthusiastic" then Some(Enthusiastic)
    else None
  }

  /** Every tone is accepted under its own name. */
  lemma ParseToneName(t: Tone)
    ensures ParseTone(ToneName(t)) == Some(t)
  {
  }
}
