# Dumper.js in Dafny

Dumper.js is a `var_dump`-like pretty printer for JavaScript values. The
prototype holds a table of constants: characters, colours, font settings and
eleven HTML templates with `{NAME}` placeholders. It also holds a handful of
private helpers:

- `_indent` builds the indentation.
- `_template` fills the placeholders with one global regular-expression
  replace.
- `_isArray` and `_isNull` classify a value.
- `_render` prints one value as a type label and a coloured fragment.
- `_dumper` walks arrays and objects recursively, one line per entry. It
  makes each nested container collapsible through a pair of spans that
  share the id `key-<random>`.
- `_dump` wraps the walk in the outer `div`.

The project models these pieces as pure functions over an immutable value
tree:

| module | file | models |
|---|---|---|
| `Decimal` | `decimal.dfy` | the decimal text JavaScript gives a safe integer, with a parser as its inverse |
| `Templates` | `templates.dfy` | `_template` as a left-to-right scanner; a piece-wise reference reading of it; the lemma that they agree |
| `Values` | `values.dfy` | the value tree, `typeof`, `_isArray`, `_isNull` and the container test |
| `Renderer` | `render.dfy` | the constants, `_indent` and `_render` |
| `Dumper` | `dumper.dfy` | `_dumper` and `_dump` |
| `Example` | `example.dfy` | the example in the documentation comment of dumper.js |

The random ids become an explicit stream `ids: nat -> RandId`. The `k`-th
call to `_randId` in a dump reads `ids(k)`, and `RandId` is the range
`0..65535` that `Math.floor(Math.random() * (1024 * 64))` covers.

The traversal `Dumper.Traverse` is written once over a `Markup` record. The
record holds the value renderer, the arrow, the key span and the items span.
`Dumper.Dumper` is that traversal at `Html`, the markup of dumper.js. Facts
about the structure of the output are proved for every markup that keeps
each entry on one line. Those facts are the line count, the order in which
ids are drawn and the step-by-step shape. They then carry over to `Html`.

What the code does at its edges, and the model with it:

- A placeholder whose field is missing from the object becomes the text
  `undefined`, because `object[item] + ''` is `"undefined"`.
- A field whose string form is empty leaves its placeholder as is. Examples
  are `{VALUE}` for the empty string and `{KEY}` for an empty key.
- A null root makes `_dumper` return the empty string. The envelope
  therefore keeps its `{DUMP}` placeholder.
- Every entry draws an id, including scalar entries that never use it.

## Model

| member | source | states |
|---|---|---|
| `Decimal.NatToString` | dumper.js:146-148 | the text of a length or size is a non-empty run of decimal digits with no leading zero |
| `Decimal.IntToString` | dumper.js:140-142 | the text of a safe integer starts with `-` exactly when the number is negative; otherwise it is the digits of the number |
| `Decimal.NatToStringRoundTrip` | dumper.js:146-148 | reading the printed digits back gives the number they were printed from |
| `Decimal.IntToStringRoundTrip` | dumper.js:140-142 | the printed text of any integer is a well-formed signed decimal that parses back to that integer |
| `Templates.WordRun` | dumper.js:112 | the run of `\w` characters the pattern consumes stays within the text, holds only word characters and is maximal |
| `Templates.LiteralPrefix` | dumper.js:112 | text at none of whose positions the pattern matches, such as `{}` or `{a-b}`, is copied through unchanged and the scan goes on after it |
| `Templates.HolePrefix` | dumper.js:112-113 | a placeholder at the front is replaced and the scan resumes after its `}`, so the replacement is never scanned |
| `Templates.TemplateFill` | dumper.js:111-115 | on any template made of brace-free literal runs and well-formed placeholders, the scanner agrees with the piece-by-piece reference fill |
| `Templates.NoTokenIdentity` | dumper.js:111-115 | a template in which the pattern matches nowhere is returned unchanged |
| `Templates.PlaceholderRules` | dumper.js:113 | a lone placeholder gives `undefined` when the field is missing, itself when the field is empty, and the field's text otherwise; so `0` and `false` are inserted |
| `Templates.NoRescan` | dumper.js:112 | a substituted value that looks like a placeholder (`{B}`) is not replaced again |
| `Values.TypeOfNames` | dumper.js:131-161 | `typeof` is `object` exactly for null, arrays and objects, and `number`, `string` or `boolean` exactly for those kinds |
| `Values.Utf16Length` | dumper.js:148 | `value.length` counts UTF-16 code units: at least one and at most two per character |
| `Values.Utf16LengthBmp` | dumper.js:148 | the length equals the character count exactly when no character lies beyond U+FFFF |
| `Values.Classification` | dumper.js:117-123 | `_isNull` holds only of null; a value takes the container path exactly when it is an array or object; arrays are containers; no value is both null and a container |
| `Renderer.Indent` | dumper.js:96-102 | the indentation for depth `n` has length `n` |
| `Renderer.IndentSpaces` | dumper.js:96-102 | every character of the indentation is a space |
| `Renderer.TypeTemplate` | dumper.js:64 | the scalar type template fills to `<small>`, the `TYPE` field and `</small> ` |
| `Renderer.TypeObjTemplate` | dumper.js:65 | the container type template fills to `<strong>`, the `TYPE` field and `</strong> ` |
| `Renderer.NumberTemplate` | dumper.js:57-61 | the number template fills to a span coloured by `COLOR` around `VALUE`; the boolean template is the same text |
| `Renderer.StringTemplate` | dumper.js:58 | the string template fills to the coloured value between quotes, then `(length=` with the `LENGTH` field |
| `Renderer.NullTemplate` | dumper.js:59 | the null template fills to a span coloured by `COLOR` around the word `null` |
| `Renderer.ObjectTemplate` | dumper.js:60 | the object template fills to `(size=` with the `SIZE` field, in `<em>` |
| `Renderer.ArrowTemplate` | dumper.js:62 | the arrow template fills to a span coloured by `COLOR` around `ARROW` |
| `Renderer.DumpTemplate` | dumper.js:63 | the envelope fills to a `div` of class `dump` styled with `FONT`, `SIZE` and `SPACE`, around `DUMP` |
| `Renderer.KeyTemplate` | dumper.js:66 | the key template fills to a clickable span whose handler names the `KEYID` element twice and whose text is `KEY` |
| `Renderer.ItemsTemplate` | dumper.js:67 | the items template fills to a span whose id is `KEYID` around `ITEMS` |
| `Renderer.ScalarLabel` | dumper.js:136 | a value whose `typeof` is not `object` is labelled with its `typeof` name in `<small>` |
| `Renderer.ContainerLabel` | dumper.js:131-135 | an array is labelled `array` and an object `object`, in `<strong>` |
| `Renderer.NumberFragment` | dumper.js:140-143 | a number's fragment is its decimal text in a green span |
| `Renderer.StringFragment` | dumper.js:145-149 | a non-empty string's fragment is the string between quotes in red, then its length in UTF-16 code units in decimal |
| `Renderer.EmptyStringFragment` | dumper.js:145-149 | the empty string's fragment keeps the `{VALUE}` placeholder between the quotes and gives length 0 |
| `Renderer.BooleanFragment` | dumper.js:157-159 | a boolean's fragment is `true` or `false` in a purple span |
| `Renderer.RenderNumber` | dumper.js:129-165 | `_render` of a number is the `number` label and then the green decimal text |
| `Renderer.RenderString` | dumper.js:129-165 | `_render` of a non-empty string is the `string` label, the quoted red text and its length in UTF-16 code units |
| `Renderer.RenderEmptyString` | dumper.js:129-165 | `_render` of the empty string shows `{VALUE}` between the quotes and length 0 |
| `Renderer.RenderBoolean` | dumper.js:129-165 | `_render` of a boolean is the `boolean` label and then `true` or `false` in purple |
| `Renderer.RenderNull` | dumper.js:129-165 | `_render` of null has no label and no size, only the blue `null` span |
| `Renderer.RenderContainer` | dumper.js:129-165 | `_render` of an array or object is the bold `array` or `object` label and then its number of entries |
| `Renderer.RenderOther` | dumper.js:129-165 | `_render` of undefined, a function, a symbol or a bigint is its type label alone |
| `Renderer.ArrowText` | dumper.js:187 | the arrow is `=>` in a gray span |
| `Renderer.RenderOneLine` | dumper.js:129-165 | `_render` never prints a line break unless a string value holds one, and it always starts with a tag |
| `Dumper.KeyId` | dumper.js:194 | the shared element id is `key-` followed by decimal digits that read back as the drawn id |
| `Dumper.KeyIdInjective` | dumper.js:194-204 | two draws give the same element id only when they are the same number |
| `Dumper.Dumper` | dumper.js:167-217 | `_dumper` prints nothing exactly for null |
| `Dumper.Traverse` | dumper.js:167-217 | for any markup, the traversal is empty exactly for null |
| `Dumper.KeySpanText` | dumper.js:193-194 | the key span of a non-empty key holds the id `key-<id>` twice in its handler and the key as its text |
| `Dumper.EmptyKeySpanText` | dumper.js:193-194 | an empty key leaves the `{KEY}` placeholder in the key span |
| `Dumper.ItemsSpanText` | dumper.js:204 | the items span carries the same `key-<id>` as the key span, around the nested dump |
| `Dumper.ScalarEntry` | dumper.js:183-201 | a scalar entry is the indentation, the key, the arrow, the rendered value, a trailing space and a line break |
| `Dumper.NullEntry` | dumper.js:183-201 | a null entry is the indentation, the key, the arrow and the null span, with no trailing space |
| `Dumper.NestedEntry` | dumper.js:183-206 | a nested entry is the key span and arrow on one line, then the child's dump one level deeper inside the items span; both spans share the entry's id |
| `Dumper.NullRoot` | dumper.js:224-231 | a null root gives an empty walk, so the envelope keeps its `{DUMP}` placeholder |
| `Dumper.Envelope` | dumper.js:224-231 | any other root gives a non-empty walk, and the envelope wraps exactly that walk in the styled `div` |
| `Dumper.EmptyContainer` | dumper.js:173-177 | an empty array or object prints only its header line, with size 0 |
| `Dumper.ScalarRoot` | dumper.js:211-213 | any scalar root is its rendering and one line break, with no indentation at any depth |
| `Dumper.ScalarRootOneLine` | dumper.js:211-213 | a scalar root without a line break in its text prints exactly one line, which opens with a tag |
| `Dumper.ContainerHeader` | dumper.js:173-177 | a container prints its header at its own depth, as one line that starts with a tag, and then its entries one level deeper |
| `Dumper.HtmlIsOneLine` | dumper.js:129-206 | the markup of dumper.js keeps every entry of a single-line tree on one line |
| `Dumper.TraverseLines` | dumper.js:167-217 | for any one-line markup, a single-line tree prints one line per entry at every level plus one header per container; a scalar prints one line and null none |
| `Dumper.TraverseEntriesLines` | dumper.js:179-208 | the entries from the `i`-th on print one line each, plus the lines of their nested dumps |
| `Dumper.TraverseEntryLines` | dumper.js:183-206 | one entry prints its own line plus the whole dump of a nested container |
| `Dumper.DumperLines` | dumper.js:167-217 | the line count of `_dumper` on a single-line tree, as in `TraverseLines` |
| `Dumper.TraverseIds` | dumper.js:179-206 | the walk of `v` from call `next` on depends on the ids only through calls `next` to `next + Draws(v) - 1` |
| `Dumper.TraverseEntriesIds` | dumper.js:179-208 | the same holds for the entries from the `i`-th on |
| `Dumper.TraverseEntryIds` | dumper.js:181-206 | the same holds for one entry's nested dump |
| `Dumper.DumpIds` | dumper.js:224-231 | the whole dump reads the first `Draws(root)` ids and no others |
| `Dumper.FlatIds` | dumper.js:181-206 | a container without nested containers prints the same text whatever ids are drawn |
| `Dumper.ScalarStep` | dumper.js:183-201 | for any markup, a scalar entry is one line and the entries after it start at the next call |
| `Dumper.NestedStep` | dumper.js:183-206 | for any markup, a nested entry's child walk starts right after the entry's own call, and the entries after it start after all the child's calls |
| `Example.InnerExample` | dumper.js:21-24 | the array `[1,2,3]` of the example at depth 2: its header at indent 2, then entries `0`, `1`, `2` at indent 3 |
| `Example.OuterEntries` | dumper.js:19-20 | the root object's entries at indent 1: ` foo => ...` on call 0, then ` baz =>` whose key span and items span use `ids(1)` |
| `Example.OuterExample` | dumper.js:16-20 | the object of the example: its header, ` foo => ...` on call 0, and ` baz =>` with key span and items span sharing id `ids(1)` |
| `Example.DocumentedExample` | dumper.js:16-24 | the whole documented dump of `{foo: 'bar', baz: [1,2,3]}`, line by line, for any scalars in place of `'bar'`, 1, 2, 3 |
| `Example.DocumentedDump` | dumper.js:16-24 | the documented call `{foo: 'bar', baz: [1,2,3]}` in the markup of dumper.js: header, ` foo =>` line, and ` baz =>` with the key span and items span of id `ids(1)` around the array's lines |
| `Example.DocumentedRenderings` | dumper.js:16-24 | in that dump the object renders with size 2, the array with size 3, `'bar'` with length 3, and 1, 2, 3 as decimal numbers |

## Left out

- `toString` (dumper.js:74-78) is left out. It needs a DOM node and the browser's `innerText` of the HTML, so the model stops at the HTML that `toHTML` and `_dump` return.
- `_randId` (dumper.js:125-127) is replaced by the id stream. Its values are the stream's values, so randomness is a parameter.
- Numbers are integers. JavaScript's text for fractions, exponents, `NaN`, `Infinity` and `-0` is not modelled.
- `Decimal.IntToString`: `Num(n)` stands for a JavaScript number only when `n` is a safe integer, `|n| <= 2^53 - 1`. Above that, JavaScript prints the shortest digits that identify the double and pads them with zeros (`2**60 + ''` is `1152921504606847000`), while the model prints the exact digits; this also holds for `Renderer.NumberFragment` and `Renderer.RenderNumber`.
- The value tree is finite and acyclic. On a cyclic object the source recurses without bound until the call stack overflows with a `RangeError`; that is not modelled.
- An object's field list is taken to be duplicate-free, as the keys of a JavaScript object are. A list with a repeated name stands for no JavaScript object, and `Size` and the entries would count it twice.
- Strings are sequences of Unicode scalar values. A JavaScript string can also hold a lone surrogate, which this model cannot represent. Astral characters are counted as two code units in `LENGTH`, as `value.length` counts them.
- for-in enumeration is taken as given by the order of an object's field list. Inherited enumerable properties, the integer-key-first ordering of objects, and sparse or extra array properties are not modelled.
- The global loop variables `i` and `item`, which `_indent` and `_dumper` leak, are not modelled. Each use of `item` happens before the recursive call that reassigns it, so the output of one dump is the same. Each entry is modelled with its own key.
- Template fields are looked up in an explicit map. Lookups that reach `Object.prototype` are not modelled, such as a field named `constructor`.
- The constructor `Dumper(object)` (dumper.js:29-39) and the `toHTML` wrapper (dumper.js:85-87) only store and forward the object. `DumpHtml` stands for both.
- What the `onclick` handler of the key span does in a browser is not modelled. Only its text is.
- `typeof` kinds are limited to the seven in `Values.Value`. Host objects and other exotic values are not covered.
- The template constants are built from their literal runs and placeholders. Each run is taken from the source text. No lemma equates a whole constant with the source's one-piece string.
- `Dumper.DumperLines`: the line count is proved only for trees whose strings and keys hold no line break. A line break inside a value adds lines, and the model does not count those.
- `Example.DocumentedExample`: the comment at dumper.js:16-24 shows the text `toString` would extract. This lemma and `Example.DocumentedDump` state the HTML before that extraction: the first for any markup, the second for the markup of dumper.js.
