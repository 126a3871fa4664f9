/**
 * The regular expressions of the engine, as uninterpreted predicates.
 * `simple` is `PAT_HB_SMP` (a simple placeholder such as `{{name}}`),
 * `helper` is `PAT_HB_CPX` (a placeholder with a helper, `{{table data}}`),
 * `blockOpen`/`blockClose` are the block-open and block-close patterns
 * `PAT_HB_MLS`/`PAT_HB_MLE` (`{{#each ..}}` and `{{/each}}`), and `all` is
 * `PAT_HB_ALL` run with `captures_iter`: the successive non-overlapping
 * matches of a text, each with its position and its two groups.
 */
module Patterns {
  import opened Wrappers

  datatype Capture = Capture(start: nat, matched: string, group1: Option<string>, group2: Option<string>)

  datatype Patterns = Patterns(
    simple: string -> bool,
    helper: string -> bool,
    blockOpen: string -> bool,
    blockClose: string -> bool,
    all: string -> seq<Capture>)
}
