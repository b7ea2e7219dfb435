# JavaScript beautifier engine: a Dafny model

This project models the part of the C++ JavaScript beautifier that has
bodies: the string and vector helpers, the construction of a `Beautifier`
from its options, and the `beautify` driver.

- `VectorHelper` (vector_helper.dfy): `contains`, through the position
  `std::find` reports.
- `StringHelper` (string_helper.dfy): `split` reads items with
  `std::getline` on one delimiter. An empty input gives no items. An empty
  field between two delimiters is kept. A final delimiter yields no final
  empty item. `Fields` is the reference definition, and `Split` is the
  loop proved against it. `concat` appends strings in order; `Flatten` is
  its reference definition.
- `JsBeautify` (beautifier.dfy): the options, the nesting flags and the
  token types as datatypes, and the engine as a class with the fields of
  its private state. The constructor sets a root "BLOCK" context at
  indentation 0, an empty flag store, `lastType` = TK_START_EXPR, empty
  texts and output, and the constant tables. The punctuator and
  line-starter tables are split from their source strings by `Split`.
  `Beautify` runs three steps:
  - It moves the leading spaces and tabs of the input onto the preindent
    string. The caller's string is changed in place, so the new string is
    returned too.
  - It runs the token loop up to the first TK_EOF. Every token except an
    inline comment shifts `lastText` into `lastLastText` and records its
    own type and text.
  - It returns the preindent followed by the concatenated output, with
    the output's trailing run of '\n' and ' ' removed.

The tokenizer and the handlers are declared in the program but have no
bodies. `Beautify` therefore takes the token stream as a sequence, which
must contain a TK_EOF. It also takes, for each token, the fragments its
handler appends to the output. The handlers change nothing else.

## Model

| member | source | states |
|---|---|---|
| VectorHelper.Find | src/beauttify_js.hpp:94 | the position is the first element equal to the value, or the end when no element is equal |
| VectorHelper.Contains | src/beauttify_js.hpp:91-95 | true exactly when some element equals the value |
| StringHelper.Fields | src/beauttify_js.hpp:38-50 | split yields no items exactly when the input is empty |
| StringHelper.GetLine | src/beauttify_js.hpp:44 | getline fails only on an exhausted stream; otherwise the item is free of the delimiter and is followed by the delimiter or by the end of the stream |
| StringHelper.Split | src/beauttify_js.hpp:38-50 | the getline loop collects exactly the items of `Fields` |
| StringHelper.FieldsExcludeDelimiter | src/beauttify_js.hpp:38-50 | no item of split contains the delimiter |
| StringHelper.JoinFields | src/beauttify_js.hpp:38-50 | joining the items with the delimiter gives the input back, except that a final delimiter is lost |
| StringHelper.FieldsJoin | src/beauttify_js.hpp:38-50 | splitting a join gives back the parts when no part holds the delimiter and the last part is not empty |
| StringHelper.FieldsStep | src/beauttify_js.hpp:44-46 | a delimiter-free field followed by the delimiter is read as one item, and reading resumes after the delimiter |
| StringHelper.FieldsSingle | src/beauttify_js.hpp:44-46 | a non-empty string without the delimiter is one item |
| StringHelper.Concat | src/beauttify_js.hpp:67-77 | the result is the strings appended in order, and its length is the sum of their lengths |
| StringHelper.FlattenAppend | src/beauttify_js.hpp:67-77 | concatenating the elements of `a + b` gives the concatenation of `a` followed by that of `b` |
| StringHelper.FlattenLength | src/beauttify_js.hpp:67-77 | the concatenation's length is the sum of the element lengths |
| StringHelper.FlattenPiece | src/beauttify_js.hpp:67-77 | each element sits unchanged in the concatenation, right after the elements before it |
| JsBeautify.DefaultOptions | src/beauttify_js.hpp:133-145 | a default-constructed options value: size 0, character NUL, no tabs, brace style Expand, every other flag off and the wrap length 0 |
| JsBeautify.NewFlags | src/beauttify_js.hpp:168-181 | a fresh nesting context has the given mode, previous mode "BLOCK", every flag off and every count 0 |
| JsBeautify.IndentString | src/beauttify_js.hpp:210-213 | with tabs the indent unit is exactly one tab; otherwise it is `indentSize` copies of `indentChar` |
| JsBeautify.IndentStringAsWritten | src/beauttify_js.hpp:210-213 | as written: with tabs one tab; otherwise as many characters as the indent character's code, each equal to the indent size cast to a signed 32-bit value |
| JsBeautify.IndentStringSwapCounterexample | src/beauttify_js.hpp:212-213 | for a space and size 4 the constructor builds 32 characters of code 4, not four spaces |
| JsBeautify.IndentStringAsWrittenAgrees | src/beauttify_js.hpp:210-213 | without tabs the built indent string is the intended one exactly when the character's code equals the size |
| JsBeautify.LeadingBlanks | src/beauttify_js.hpp:702-706 | the stripped prefix is a prefix of the input, holds only spaces and tabs, and is followed by the end or by another character |
| JsBeautify.TrimTrailing | src/beauttify_js.hpp:748-752 | the result is a prefix of the input, what it cuts is only '\n' and ' ', it does not end in either, and a final tab or '\r' is kept |
| JsBeautify.TrimTrailingUnique | src/beauttify_js.hpp:748-752 | any prefix with those three properties is the trimmed string: the cut starts at the leftmost place from which only '\n' and ' ' follow |
| JsBeautify.Finalized | src/beauttify_js.hpp:747-754 | the result starts with the untouched preindent, followed by a prefix of the concatenated output that cuts only '\n' and ' ' and does not end in either |
| JsBeautify.FirstEof | src/beauttify_js.hpp:711-718 | the loop stops at a TK_EOF token and at no earlier position |
| JsBeautify.Record | src/beauttify_js.hpp:739-744 | an inline comment leaves the bookkeeping unchanged; any other token becomes `lastType` and `lastText` and pushes the previous `lastText` into `lastLastText` |
| JsBeautify.TrackIgnoresInlineComments | src/beauttify_js.hpp:739-744 | the bookkeeping after a token run equals the bookkeeping after the same run without its inline comments |
| JsBeautify.TrackLastSignificant | src/beauttify_js.hpp:739-744 | afterwards `lastType` and `lastText` come from the last token that is not an inline comment, and `lastLastText` from the one before it or from the earlier `lastText` |
| JsBeautify.Beautifier.constructor | src/beauttify_js.hpp:198-270 | options stored; flags with mode and previous mode "BLOCK" at indentation 0; flag store empty; newline flags off; indent string as intended; `lastType` TK_START_EXPR with empty texts, preindent, input and output; tables set; parser position 0 |
| JsBeautify.Beautifier.StripPreindent | src/beauttify_js.hpp:702-706 | new preindent = old preindent + removed prefix; removed prefix + remaining input = original input; the remaining input does not start with a space or tab |
| JsBeautify.Beautifier.Dispatch | src/beauttify_js.hpp:736-743 | the handler's fragments are appended to the output; a token other than an inline comment moves `lastText` to `lastLastText` and becomes `lastType` and `lastText`, and an inline comment leaves all three unchanged |
| JsBeautify.Beautifier.RunTokens | src/beauttify_js.hpp:711-745 | the tokens before the first TK_EOF are dispatched in order, and the EOF token is not; the bookkeeping fields end as `Track` says |
| JsBeautify.Beautifier.Beautify | src/beauttify_js.hpp:697-755 | the preindent strip, the input reset, the token loop, and a result equal to `Finalized` of the new preindent and output |

## Left out

- getNextToken, every Handle* method, appendNewline, append, indent and allowWrapOrPreservedNewline: declared without bodies (src/beauttify_js.hpp:757-778). The token stream and each handler's appended fragments are inputs, and no tokenizer or formatting rule is invented.
- The handlers' effects on the flags, the flag store and the newline flags: unknown without their bodies, so the model's handlers only append to the output.
- The setMode stub and the handleEndExpr functor: they have no behaviour.
- The default constructor `Beautifier()`: it leaves `lastType` as an empty tag, which is outside the token types modelled here.
- The constructor's unreachable branches: lines 243-248 cannot run, because the fresh flags' previous mode is already "BLOCK". The branch at 254-256 cannot run either, because the flag store is empty. The else branch at 257-265 does run: it copies the fresh `prev`'s indentation level, which is 0. Line 263 inside it cannot run, because `prev->varLine` is false (the contract of `NewFlags`). Only the reachable outcome is modelled: indentation 0, and the write to the previous mode at 267 goes to a copy.
- The getter and setter layer, the `Impl` indirection and the handler table rebuilt on every token: plumbing, replaced by direct fields and a match on the token type.
- The `opts` parameter of beautify: the code never reads it.
- A token type outside the handler table: the code calls an empty function object there. Token types are restricted to the listed ones plus TK_EOF.
- RunTokens: requires the token stream to contain a TK_EOF. A tokenizer that never signals end of input would make the source loop run forever.
- parserPos: only the reset to 0 is modelled, because the tokenizer that would advance it has no body.
- The punctuator and line-starter tables: the constructor's contract gives them as the split of their source strings. The word lists are not spelled out as Dafny sequences.
- IndentString: treats every 32-bit size as a count. It does not model the length error that a count of 2^31 or more would raise after the cast to int.
- Wide-character encoding: `wchar_t` is a Unicode scalar value (`char`). IndentStringAsWritten treats it as a 32-bit signed wide character, as on Linux.
- The wostringstream conversion of one character to a string: it is the character itself.

## Findings

| source | as written | input that shows it | evidently intended | confidence | as-written member | corrected member |
|---|---|---|---|---|---|---|
| src/beauttify_js.hpp:212-213 | the indent string is built with the indent character as the repeat count and the indent size as the repeated character, because the wide-string (count, character) constructor gets its arguments swapped | `indentWithTabs` false, `indentChar` ' ', `indentSize` 4: 32 characters of code 4 | `indentSize` copies of `indentChar` ("    ") | high; not executed | JsBeautify.IndentStringAsWritten, with JsBeautify.IndentStringSwapCounterexample and JsBeautify.IndentStringAsWrittenAgrees | JsBeautify.IndentString (used by the constructor) |
