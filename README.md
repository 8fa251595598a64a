# Utility functions of `index.ts`, modelled in Dafny

`index.ts` is a set of small, independent TypeScript utilities. This project
models each utility's logic as pure Dafny functions, one module per utility,
and proves what each one promises:

- `formatString` (`CaseFormatter`) picks upper-casing when its flag is `true`
  or omitted, and locale-aware lower-casing otherwise.
- `filterByRating` (`RatingFilter`) keeps the items rated 4 or more, in order.
- `concatenateArrays` (`ArrayConcat`) flattens its argument arrays in argument order.
- `processValue` (`UnionDispatch`) takes a string or a number. For a string it
  returns the length, counted in UTF-16 code units as JavaScript counts it. For a
  number it returns the double.
- `getMostExpensiveProduct` (`MostExpensive`) is a left-to-right reduction that
  replaces its accumulator only on a strictly higher price. It returns `null`
  (here `None`) for an empty list, and the first maximal product on a tie.
- `Day` and `getDayType` (`Weekdays`) cover the numeric enumeration Monday = 0 to
  Sunday = 6. Only Sunday is a "Weekend".
- `squareAsync` (`DelayedSquare`) rejects a negative number before any timer is
  scheduled. Otherwise it resolves with the square after 1000 ms.

JavaScript numbers (ratings, prices, `processValue`'s and `squareAsync`'s
arguments) are modelled as `real`.

## Model

| member | source | states |
|---|---|---|
| `CaseFormatter.FormatString` | index.ts:1-7 | the upper-case mapping is applied when the flag is `true` or omitted; only an explicit `false` applies the locale lower-case mapping |
| `CaseFormatter.OmittedFlagMeansUpper` | index.ts:2 | omitting the flag gives the same result as passing `true` |
| `RatingFilter.FilterByRating` | index.ts:18-20 | every item of the result has a rating of at least 4; the result is no longer than the input |
| `RatingFilter.FilterCounts` | index.ts:19 | each item with rating at least 4 occurs in the result as often as in the input; no other item occurs |
| `RatingFilter.FilterMembership` | index.ts:19 | an item is in the result if and only if it is in the input and its rating is at least 4 |
| `RatingFilter.FilterIsSubsequence` | index.ts:19 | the result is a subsequence of the input (original relative order kept) |
| `RatingFilter.FilterAppend` | index.ts:19 | filtering a concatenation equals concatenating the filtered parts |
| `RatingFilter.FilterKeepsAllIff` | index.ts:19 | the input comes back unchanged if and only if every item is rated at least 4 |
| `RatingFilter.FilterIdempotent` | index.ts:19 | filtering an already filtered list changes nothing |
| `RatingFilter.RatedSubsequenceOfFilter` | index.ts:18-20 | every subsequence of the input made of well-rated items is a subsequence of the result |
| `RatingFilter.FilterIsLongestRatedSubsequence` | index.ts:18-20 | the result is the longest well-rated subsequence of the input and the only one of its length, i.e. exactly the well-rated items in their original order |
| `ArrayConcat.ConcatenateArrays` | index.ts:24-26 | the result's length is the sum of the argument lengths (so zero arguments give the empty array) |
| `ArrayConcat.ConcatenateAppend` | index.ts:25 | concatenating the arguments of two calls gives the two results one after the other |
| `ArrayConcat.ConcatenateSingle` | index.ts:25 | a single argument array is returned element for element |
| `ArrayConcat.ConcatenateAt` | index.ts:24-26 | element `j` of argument `i` is at position (sum of the lengths of arguments before `i`) + `j` |
| `ArrayConcat.ConcatenateMembership` | index.ts:24-26 | an element is in the result if and only if it is in some argument array |
| `UnionDispatch.ProcessValue` | index.ts:61-63 | a text gives its length in code units (never negative); a number gives a value whose half is the number |
| `UnionDispatch.EncodeChar` | index.ts:62 | a character takes two UTF-16 code units exactly when it lies outside the Basic Multilingual Plane, one otherwise |
| `UnionDispatch.TextLengthCountsCodeUnits` | index.ts:62 | the length of an encoded text is its character count plus its count of characters outside the Basic Multilingual Plane; it is between the character count and twice that, and equal to the character count exactly when no character lies outside that plane |
| `UnionDispatch.ProcessValueExamples` | index.ts:61-63 | "hello" gives 5, "" gives 0, 10 gives 20 |
| `MostExpensive.Dearer` | index.ts:78 | the reduction step returns the accumulator or the new product, at least as dear as both; it takes the new product only when that product is strictly dearer (or identical) |
| `MostExpensive.ReduceByPrice` | index.ts:77-79 | the reduction returns its start value or a visited product, and no visited product is dearer |
| `MostExpensive.GetMostExpensiveProduct` | index.ts:73-81 | `None` if and only if the list is empty; otherwise a product of the list whose price is at least every product's price |
| `MostExpensive.ReduceFindsFirstMax` | index.ts:77-79 | the reduction returns the first element of maximal price among the start value and the rest |
| `MostExpensive.MostExpensiveIsFirstMax` | index.ts:73-81 | when `k` is the first position of maximal price, the result is the product at `k`: ties go to the earliest product |
| `MostExpensive.FirstMaxExists` | index.ts:73-81 | every non-empty list has a first position of maximal price, so the previous row covers every non-empty input |
| `MostExpensive.FirstOfTiedProductsWins` | index.ts:77-79 | of prices 10, 30, 30 the product "b" (the first 30) is returned |
| `Weekdays.Ordinal` | index.ts:86-94 | every constant stands for a number below 7 |
| `Weekdays.FromOrdinal` | index.ts:86-94 | each ordinal 0 to 6 maps back to the constant that has it |
| `Weekdays.OrdinalRoundTrip` | index.ts:86-94 | constant to ordinal and back gives the same constant |
| `Weekdays.GetDayType` | index.ts:96-98 | "Weekend" if and only if the day is Sunday; "Weekday" if and only if it is not (Saturday included) |
| `DelayedSquare.SquareAsync` | index.ts:103-112 | rejected with "Negative number not allowed" and no timer exactly when `n < 0`; otherwise resolved after 1000 ms with `n * n`, which is non-negative |
| `DelayedSquare.SquareIsMonotone` | index.ts:110 | for accepted inputs a larger input never resolves to a smaller square |

## Left out

- `Vehicle` and `Car` (index.ts:31-56): they only store fields and build template strings. Those strings embed a JavaScript number's decimal text, and number-to-string conversion is not modelled.
- `CaseFormatter.FormatString`: `toUpperCase` and `toLocaleLowerCase` depend on Unicode case tables and the runtime locale, so they are parameters of the model. Only the branch choice is modelled.
- JavaScript floating point: NaN, infinities, `-0` and rounding in `value * 2` and `n * n` are not modelled, because numbers are `real`. A NaN argument to `squareAsync` is not negative, so it would resolve with NaN; the model has no NaN.
- `squareAsync`'s promise and timer: the model records only how the promise settles (rejected at once, or resolved after the delay with a value). Scheduling, the event loop and the 1000 ms wait are not modelled.
- The optional chaining in `value?.length` (index.ts:62) and `products?.length` (index.ts:74): under the declared types the value is never `null`/`undefined`, so these paths cannot be reached and are not modelled.
- `Weekdays.GetDayType`: TypeScript accepts any `number` as a `Day`, and every value other than 6 gives "Weekday"; the model's `Day` covers only the seven constants.
