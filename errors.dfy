/** The exceptions that escape the proxy's handlers, as values. */
module Errors {
  import opened Http

  datatype Error =
    /** IllegalArgumentException from `Method.valueOf` on a rule's first word. */
    | UnknownMethod(name: string)
    /** IndexOutOfBoundsException: the rule has no second word to use as the path pattern. */
    | MissingPattern(rule: string)
    /** The path pattern uses regular-expression syntax outside the modelled subset. */
    | PatternOutsideSubset(pattern: string)
    /** IllegalStateException: the app is listed under two or more namespaces and no namespace header was given. */
    | AmbiguousApp(app: string)
    /** An exception thrown by an HTTP client and not caught. */
    | Thrown(exception: Exception)
    /** RuntimeException("Failed to execute action after N attempts."). */
    | RetriesExhausted(attempts: int)
    /** AuthenticationException: the identity provider's answer carries no access token. */
    | AccessTokenMissing(alias: string, tokenType: string)
    /** The JSON web token decoder rejects the text given as the access token. */
    | MalformedToken(text: string)
}
