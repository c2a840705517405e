/** The closed set of backends the service can talk to, and their names. */
module Providers {
  import opened Wrappers

  datatype Provider = OpenAI | Baidu | Alibaba | Tencent

  /** The name by which configuration and requests refer to a backend. */
  function Name(p: Provider): string {
    match p
    case OpenAI => "openai"
    case Baidu => "baidu"
    case Alibaba => "alibaba"
    case Tencent => "tencent"
  }

  /** The accepted names, in the order `getSupportedProviders` lists them. */
  const SupportedNames: seq<string> := ["openai", "baidu", "alibaba", "tencent"]

  /** The backend a name selects, if it is one of the four. */
  function Parse(name: string): (r: Option<Provider>)
    ensures r.Some? <==> name in SupportedNames
    ensures r.Some? ==> Name(r.value) == name
  {
    if name == "openai" then Some(OpenAI)
    else if name == "baidu" then Some(Baidu)
    else if name == "alibaba" then Some(Alibaba)
    else if name == "tencent" then Some(Tencent)
    else None
  }

  /** Every backend's name is accepted and selects that backend again. */
  lemma ParseName(p: Provider)
    ensures Name(p) in SupportedNames
    ensures Parse(Name(p)) == Some(p)
  {
  }

  /** The supported list holds each backend's name exactly once, in declaration order. */
  lemma SupportedNamesAreNames()
    ensures SupportedNames == [Name(OpenAI), Name(Baidu), Name(Alibaba), Name(Tencent)]
    ensures forall i, j | 0 <= i < j < |SupportedNames| :: SupportedNames[i] != SupportedNames[j]
  {
  }
}
