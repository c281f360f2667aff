# Quotation amounts in words

The quotation PDF service prints an amount twice on each document: as a
number and in English words ("One Thousand One Hundred Fifty"). This project
models the two pure computations behind those amounts in `index.js`:

- `numberToWords` and its inner recursive `convertToWords`, with the
  `belowTwenty` and `tens` word tables (module `NumberWords`).
- The pre-tax `totalPrice`: a fold over the quotation's items that adds each
  item's quantity times price and the quantity times price of each of its
  sub-items (module `InvoiceTotal`).

`NumberWords.ConvertToWords` follows the source branch by branch:
- below twenty, a table word;
- below a hundred, a tens word and an optional unit;
- then the Hundred, Thousand, Million and Billion groups, each adding its
  remainder clause only when the remainder is not zero.

`NumberWords.NumberToWords` adds the top-level special case for zero.

The converter has no inverse in the source. Module `WordsReader` supplies an
independent one. It splits a sentence at its spaces and looks each word up in
a vocabulary written out on its own. It then evaluates the words left to
right: a running total of closed Thousand/Million/Billion groups, plus the
value of the group being read. Reading back the words of every amount below
one trillion gives the amount back, so no two such amounts share their
words.

The reader's side is specified on the amount itself: `WordsReader.Meaning`
gives, group by group, the tokens an amount should read as, and
`WordsReader.TokensOfWords` proves that the converter's words mean exactly
those tokens.

A uniform view of the converter helps the proofs. `NumberWords.WordList`
lists the words of an amount: the quotient's words, the scale word, then the
remainder's words. `NumberWords.ConvertIsJoin` proves that the converter's
output is exactly those words joined by single spaces.

The totals are modelled as left folds over `int` quantities and prices, in
the order of the list. They are related to an independent right-to-left sum
over the printed lines of the quotation: every item line followed by its
sub-item lines.

Above one billion, the code's last branch recurses on the quotient with no
further scale word. So 10^12 is written "One Thousand Billion" and 10^18
"One Billion Billion". No scale word above Billion exists, and the words
stack. `NumberWords.PastBillion` pins down what the code prints there.

## Model

| member | source | states |
|---|---|---|
| NumberWords.TableWords | index.js:24-26 | the below-twenty table has 20 entries and the tens table 10; an entry is empty exactly at the unused indices (0 below twenty, 0 and 1 for the tens); no entry has 'Z' or a space or is a group's scale word |
| NumberWords.ConvertToWords | index.js:28-35 | the recursive converter gives the empty word exactly for 0 |
| NumberWords.NumberToWords | index.js:37 | the words are "Zero" exactly when the amount is 0 |
| NumberWords.ConvertHasNoZ | index.js:24-35 | no word the recursive converter can print contains the letter 'Z' |
| NumberWords.ZeroOnlyForZero | index.js:37 | "Zero" occurs anywhere in the words exactly when the amount is 0 |
| NumberWords.ConvertWellSpaced | index.js:28-35 | for a positive amount the words are non-empty, do not start or end with a space, and never hold two spaces in a row |
| NumberWords.NumberToWordsWellSpaced | index.js:37 | the same spacing holds for every amount, zero included |
| NumberWords.TensShape | index.js:30 | between 20 and 99 the words are the tens word alone exactly when the unit digit is 0, else the tens word, a space and the unit word |
| NumberWords.HundredGroup | index.js:31 | between 100 and 999 the words are the hundreds digit's word, " Hundred", and the remainder's words after a space when the remainder is not 0 |
| NumberWords.ScaleGroup | index.js:32-34 | in the Thousand, Million and Billion ranges the words are the quotient's words, the scale word, and the remainder's words after a space when the remainder is not 0 |
| NumberWords.GroupShape | index.js:31-34 | from 100 up, the quotient and remainder by the group's base are smaller than the amount, and the words are the quotient's words, the group's scale word and the remainder clause |
| NumberWords.GroupRemainderClause | index.js:31-34 | from 100 up, the words equal the quotient-and-scale-word prefix exactly when the remainder is 0, and otherwise are that prefix, a space and the remainder's words |
| NumberWords.WordListWords | index.js:24-35 | every entry of the word list of a positive amount is non-empty and free of spaces and of 'Z' |
| NumberWords.GroupWordsBelowTrillion | index.js:31-34 | below 10^12 the group scale words among the words are exactly "Billion" when there are billions, "Million" when the last nine digits hold millions and "Thousand" when the last six digits hold thousands, in that order |
| NumberWords.GroupWordsDescend | index.js:31-34 | below 10^12 each group scale word appears at most once, from the largest group down |
| WordsReader.SplitConvert | index.js:28-35 | split at its spaces, the converter's text for a positive amount is its word list |
| WordsReader.PrintedGroupWords | index.js:31-37 | below 10^12, among the printed words the group scale words are exactly Billion, Million and Thousand, each when its group is non-zero, in that order, so each appears at most once and from the largest group down |
| WordsReader.StackedScaleWordsMisread | index.js:34 | the words of 10^12 ("One Thousand Billion") read back as 1000 |
| WordsReader.RoundTripFailsPastTrillion | index.js:34 | for every amount n from 10^12 below 10^21 the words read back as n - (q - q % 1000) * (10^9 - 1), with q = n / 10^9, and never as n: the round trip fails everywhere in that range |
| NumberWords.ConvertIsJoin | index.js:28-35 | the converter's output for a positive amount is its word list joined by single spaces |
| NumberWords.SampleSmallValues | index.js:29-37 | 0, 19, 20, 21, 100 and 105 are written "Zero", "Nineteen", "Twenty", "Twenty One", "One Hundred", "One Hundred Five" |
| NumberWords.SampleLargeValues | index.js:31-33 | 1000, 1150, 1250, 1000000 and 2300000 are written "One Thousand", "One Thousand One Hundred Fifty", "One Thousand Two Hundred Fifty", "One Million", "Two Million Three Hundred Thousand" |
| NumberWords.PastBillion | index.js:34 | 10^12 is written "One Thousand Billion", 10^18 "One Billion Billion", 10^12 + 1 "One Thousand Billion One", and 10^12 + 1000 "One Thousand Billion One Thousand" |
| WordsReader.ClassifyBelowTwenty | index.js:24-25 | each non-empty word of the below-twenty table means its own index to the reader |
| WordsReader.ClassifyTens | index.js:26 | each tens word means ten times its index to the reader |
| WordsReader.SplitJoinWords | index.js:28-35 | splitting words that were joined by single spaces gives back the same words |
| WordsReader.ReadBelowThousand | index.js:29-31 | below a thousand, the converter's words read from the start of a group give the amount as the group's value |
| WordsReader.TokensOfWords | index.js:24-35 | the reader takes the words of every positive amount to mean that amount's tokens: its digit, teen and tens values, "Hundred", and its Thousand, Million and Billion group words |
| WordsReader.ReadBelowMillion | index.js:29-32 | below a million, read from the start of a group, the words add the thousands to the total and leave the last three digits as the group's value |
| WordsReader.ReadBelowBillion | index.js:29-33 | below a billion, the words add every group above the last to the total and leave the last three digits as the group's value |
| WordsReader.ReadBelowTrillion | index.js:29-34 | below 10^12, the words add every group above the last to the total and leave the last three digits as the group's value |
| WordsReader.RoundTrip | index.js:23-38 | reading back the words of any amount below 10^12 gives that amount |
| WordsReader.WordsDistinguishAmounts | index.js:23-38 | two amounts below 10^12 with the same words are equal |
| InvoiceTotal.SubItemsTotal | index.js:48-50 | the sub-item fold equals the sum, taken from the other end, of quantity times price over every sub-item line |
| InvoiceTotal.TotalPrice | index.js:43-53 | the item fold equals the sum, taken from the other end, of quantity times price over every item line and every sub-item line of the quotation |
| InvoiceTotal.Lines | index.js:304-327 | a quotation without items prints no lines; otherwise its first printed line is the first item's own quantity and price |
| InvoiceTotal.SubLines | index.js:314-325 | an item prints one line per sub-item, in order, with that sub-item's quantity and price |
| InvoiceTotal.TotalPriceAppend | index.js:43-53 | the total of two item lists one after the other is the sum of their totals |
| InvoiceTotal.LinesAppend | index.js:304-327 | the printed lines of two item lists one after the other are the lines of each |
| InvoiceTotal.SwapKeepsTotal | index.js:43-53 | listing two groups of items in either order gives the same total |
| InvoiceTotal.TotalNonNegative | index.js:43-53 | with no negative quantity or price on any line, the total is not negative |
| InvoiceTotal.TotalInWordsReadsBack | index.js:43-54 | with no negative quantity or price and a total below 10^12, the total's words read back as the total |

## Left out

- The HTML template, apart from its item rows, which `InvoiceTotal.Lines` abstracts as (quantity, price) pairs; the printed columns swap the two (index.js:298-299 against :310-311 and :320-321).
- The HTTP endpoint, request parsing, the headless browser, the object-storage upload and the static route: I/O outside the computation.
- VAT and the final amount (index.js:55-57) use floating-point arithmetic. The final amount is a whole number only for some totals; for the others `numberToWords` is called on a non-integer, where the table lookup is undefined. Amounts are modelled as `nat` only.
- Amounts that are not whole non-negative numbers. The model's converter takes `nat`, so it cannot show what the code does with them:
  - A negative number or a non-integer below 20 indexes the table outside its entries, and the result is `undefined`.
  - From 20 up, a non-integer is printed with the word "undefined" inside it (index.js:29 or :30 looks up `belowTwenty` at a fractional index: 20.5 gives "Twenty undefined", 100.5 gives "One Hundred undefined"). A total of 1001 gives a final amount of 1151.15, printed "One Thousand One Hundred Fifty undefined".
  - NaN and Infinity fail every `n < …` test and reach index.js:34, which calls the converter on NaN or Infinity again. The recursion never ends and overflows the stack. NaN comes from an item or sub-item whose quantity or price is missing or not numeric (index.js:45, :49). The throw happens at index.js:54, before the `try` at index.js:58.
- An item without a `subItems` array: index.js:48 throws a TypeError. The model's `Item` always has a sequence of sub-items.
- Negative quantities and prices: they are `int` in the model, so a quotation with a negative line can have a negative total, which the converter is not defined on. `InvoiceTotal.TotalNonNegative` names the condition under which the total is a valid amount.
- JavaScript numbers are doubles: integers above 2^53 lose precision, and sums of non-integer prices round. The model uses exact unbounded integers.
- WordsReader.RoundTrip: states the round trip only below 10^12, because from there up it is false. The code writes the Billion group's quotient with its own scale words ("One Thousand Billion"), and the reader misreads stacked scale words: `WordsReader.StackedScaleWordsMisread` shows that the words of 10^12 read back as 1000, and `WordsReader.RoundTripFailsPastTrillion` that every amount from 10^12 below 10^21 reads back smaller than itself.
- NumberWords.GroupWordsDescend: states the order of the group scale words only below 10^12. From 10^12 up, the code writes the Billion group's quotient with its own scale words. The order fails at 10^12 ("One Thousand Billion" puts Thousand before Billion), a scale word can repeat from 10^12 + 1000 ("One Thousand Billion One Thousand"), and "Billion" itself repeats from 10^18 ("One Billion Billion"), as `NumberWords.PastBillion` shows.
- InvoiceTotal.TotalPriceAppend: floating-point addition is not associative, so for non-integer prices the source's sum depends on the order of the items; the model sums exactly.
