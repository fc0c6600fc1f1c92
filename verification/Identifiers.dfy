/** Character classes and the identifier formats shared by resources, pipelines and applications. */
module Identifiers {

  predicate IsLower(c: char) { 'a' <= c <= 'z' }

  predicate IsUpper(c: char) { 'A' <= c <= 'Z' }

  predicate IsDigit(c: char) { '0' <= c <= '9' }

  predicate IsAlphanumeric(c: char) { IsLower(c) || IsUpper(c) || IsDigit(c) }

  /** ASCII control characters, the delete character included. */
  predicate IsControl(c: char) { c < ' ' || c == '\U{7F}' }

  /** `validate_resource_id` and `validate_output_name` */
  predicate IsResourceId(s: string) {
    && 0 < |s| <= 128
    && IsLower(s[0])
    && forall i :: 0 <= i < |s| ==> IsLower(s[i]) || IsDigit(s[i]) || s[i] == '-' || s[i] == '_' || s[i] == '.'
  }

  /** `validate_slug` */
  predicate IsSlug(s: string) {
    && 0 < |s| <= 63
    && IsLower(s[0])
    && (IsLower(s[|s| - 1]) || IsDigit(s[|s| - 1]))
    && forall i :: 0 <= i < |s| ==> IsLower(s[i]) || IsDigit(s[i]) || s[i] == '-'
  }

  function CharLength(c: char): nat {
    if c < '\U{80}' then 1 else if c < '\U{800}' then 2 else if c < '\U{10000}' then 3 else 4
  }

  /** Length of the UTF-8 encoding. */
  function ByteLength(s: string): nat {
    if s == "" then 0
    else CharLength(s[0]) + ByteLength(s[1..])
  }

  /** Unicode white space. */
  predicate IsWhitespace(c: char) {
    || '\U{9}' <= c <= '\U{D}' || c == ' ' || c == '\U{85}' || c == '\U{A0}' || c == '\U{1680}'
    || '\U{2000}' <= c <= '\U{200A}' || c == '\U{2028}' || c == '\U{2029}' || c == '\U{202F}' || c == '\U{205F}'
    || c == '\U{3000}'
  }

  /** Nothing is left after trimming. */
  predicate IsBlank(s: string) {
    forall i :: 0 <= i < |s| ==> IsWhitespace(s[i])
  }

  predicate StartsWith(s: string, prefix: string) {
    prefix <= s
  }

  predicate EndsWith(s: string, suffix: string) {
    |suffix| <= |s| && s[|s| - |suffix|..] == suffix
  }

  predicate NoControl(s: string) {
    forall i :: 0 <= i < |s| ==> !IsControl(s[i])
  }

  /** `validate_absolute_path` */
  predicate IsSafePath(s: string) {
    StartsWith(s, "/") && ByteLength(s) <= 4096 && NoControl(s)
  }
}
