/**
 * The java.util.regex engine, left uninterpreted: the model fixes which
 * operations it offers and how the rest of the program uses them, not what
 * any pattern means.
 */
module Regex {

  datatype Engine = Engine(
    /** Pattern.compile(re) succeeds. */
    compiles: string -> bool,
    /** The text of the PatternSyntaxException Pattern.compile(re) throws otherwise. */
    syntaxError: string -> string,
    /** Pattern.compile(re).matcher(s).matches(): the WHOLE of `s` matches `re`. */
    fullMatch: (string, string) -> bool,
    /** line.replaceAll(find, replace): every match of `find` in `line` substituted. */
    replaceAll: (string, string, string) -> string)
}
