/** The metadata paths the scanner follows and the ones it keeps. */
module Allowlist {
  import opened JsonGrammar
  import opened Scanner

  function Dot(parent: string, name: string): string {
    parent + "." + name
  }

  predicate IsDetails(key: string) {
    key == "prompt_tokens_details" || key == "input_tokens_details"
  }

  predicate IsCounter(key: string) {
    || key == "input_tokens" || key == "output_tokens" || key == "prompt_tokens" || key == "completion_tokens"
    || key == "cache_creation_input_tokens" || key == "cache_read_input_tokens"
    || key == "service_tier" || key == "speed"
  }

  predicate IsDetailCounter(key: string) {
    || key == Dot("prompt_tokens_details", "cached_tokens") || key == Dot("input_tokens_details", "cached_tokens")
    || key == Dot("prompt_tokens_details", "cache_write_tokens") || key == Dot("input_tokens_details", "cache_write_tokens")
  }

  /** `path` is `prefix` followed by something; the rest is what follows. */
  function AfterPrefix(prefix: string, path: string): Option<string> {
    if prefix <= path then Some(path[|prefix|..]) else None
  }

  predicate IsRootContainer(path: string) {
    || path == "" || path == "usage" || path == "message" || path == "delta" || path == "response"
    || path == "choices" || path == "incomplete_details"
  }

  predicate IsNestedContainer(path: string) {
    || path == Dot("message", "usage") || path == Dot("response", "usage") || path == Dot("choices", "*")
    || path == Dot("response", "incomplete_details")
  }

  predicate UnderUsage(path: string, field: string -> bool) {
    || (AfterPrefix("usage.", path).Some? && field(AfterPrefix("usage.", path).value))
    || (AfterPrefix("message.usage.", path).Some? && field(AfterPrefix("message.usage.", path).value))
    || (AfterPrefix("response.usage.", path).Some? && field(AfterPrefix("response.usage.", path).value))
  }

  predicate MetadataContainer(path: string) {
    IsRootContainer(path) || IsNestedContainer(path) || UnderUsage(path, IsDetails)
  }

  predicate IsRootScalar(path: string) {
    path == "model" || path == "type" || path == "status" || path == "stop_reason" || path == "service_tier"
  }

  predicate IsNestedScalar(path: string) {
    || path == Dot("message", "model") || path == Dot("response", "model") || path == Dot("response", "service_tier")
    || path == Dot("response", "status") || path == Dot("delta", "stop_reason")
    || path == Dot(Dot("choices", "*"), "finish_reason")
    || path == Dot("incomplete_details", "reason") || path == Dot(Dot("response", "incomplete_details"), "reason")
  }

  predicate IsUsageField(key: string) {
    IsCounter(key) || IsDetailCounter(key)
  }

  predicate MetadataScalar(path: string) {
    IsRootScalar(path) || IsNestedScalar(path) || UnderUsage(path, IsUsageField)
  }

  /** The scanner's rules; only the decoding of quoted tokens is left open. */
  function MetadataRules(decode: Bytes -> string): Rules {
    Rules(decode, MetadataContainer, MetadataScalar)
  }
}
