# Dashboard filter conversion and XIRR bucket shaping, in Dafny

This project models two small pure transformations of GoodData's `sdk-ui-ext`
package and proves properties of them.

- **Filter-context converter** (`filterContextToFiltersForWidget`): it turns the filters of a
  dashboard filter context into execution filters for one widget.
  - Attribute filters become positive or negative attribute filters.
  - Their element references are encoded either as `uris` or as `values`.
  - Relative date filters have their bounds coerced to numbers with `Number.parseInt`.
  - Absolute date filters have their bounds stringified.
  - Every date filter is attached to the widget's date data set.
- **XIRR bucket shaper** (`getXirrBuckets`): it turns any list of reference-point buckets into
  exactly two buckets. The first is the measure bucket, holding at most one measure. The second
  is the attribute bucket, holding at most one date item.

Files:

- `wrappers.dfy`: `Option`, which stands for `T | undefined`.
- `number_parsing.dfy`: JavaScript's `Number.parseInt` and the decimal `toString` of an integer.
  - `parseInt` is called without a radix. It follows the parseInt algorithm of ECMA-262
    (section 19.2.5): leading white space, an optional sign, a `0x`/`0X` prefix, the longest run
    of digits, and NaN when there is no digit.
  - It includes a decimal reference definition and round-trip proofs.
- `sdk_model.dfy`: object references, attribute element lists and the execution filter kinds.
- `converters.dfy`: the filter-context converter and its properties.
- `xirr_bucket_helper.dfy`: the XIRR bucket shaper and its properties.

The bucket helper functions (`limitNumberOfMeasuresInBuckets`, `findBucket`, `getMeasures`,
`getDateItems`) are passed in as a record of functions (`BucketHelpers`).
- The shape guarantees hold for every choice of helpers.
- The "nothing is invented" lemma states the little it needs of them as `SoundHelpers`.

## Model

| member | source | states |
|---|---|---|
| `Converters.FilterContextToFiltersForWidget` | libs/sdk-ui-ext/src/internal/dashboardEmbedding/converters.ts:28-66 | An absent filter context gives no filters. Otherwise there is one output filter per context filter, at the same position, and it is that filter's conversion. |
| `Converters.FiltersForWidget` | libs/sdk-ui-ext/src/internal/dashboardEmbedding/converters.ts:36 | Mapping over the filter list keeps its length, and output `i` is the conversion of input `i`. |
| `Converters.FiltersForWidgetAppend` | libs/sdk-ui-ext/src/internal/dashboardEmbedding/converters.ts:36-65 | Converting a concatenation is concatenating the conversions. So each output filter depends only on its own input filter, and order is kept. |
| `Converters.FilterForWidget` | libs/sdk-ui-ext/src/internal/dashboardEmbedding/converters.ts:37-64 | An attribute filter becomes a negative filter exactly when `negativeSelection` holds, and a positive one otherwise, with the same display form and the encoded elements. A date filter is attached to the widget's date data set. A relative one keeps its granularity and carries coerced bounds. An absolute one carries stringified bounds. |
| `Converters.ContextItemOfFilterForWidget` | libs/sdk-ui-ext/src/internal/dashboardEmbedding/converters.ts:37-62 | Reading a converted filter back gives the original dashboard filter, when the original uses one element kind, numeric relative bounds, and string absolute bounds, and, if absolute, has an empty granularity (the conversion drops an absolute filter's granularity). So the conversion loses nothing else. |
| `Converters.AbsoluteFilterIgnoresGranularity` | libs/sdk-ui-ext/src/internal/dashboardEmbedding/converters.ts:57-62 | An absolute date filter's granularity has no effect on the execution filter it becomes. |
| `Converters.AttributeElementsToElements` | libs/sdk-ui-ext/src/internal/dashboardEmbedding/converters.ts:72-78 | An empty list is encoded as `{values: []}`. A non-empty list is encoded as `uris` exactly when element 0 is a URI reference. The encoded list has the same length and order, and entry `i` is the string form of element `i`. |
| `Converters.RefsToStrings` | libs/sdk-ui-ext/src/internal/dashboardEmbedding/converters.ts:75-76 | `map(objRefToString)` keeps length and order, and entry `i` is the string form of reference `i`. |
| `Converters.ElementsRoundTripIffHomogeneous` | libs/sdk-ui-ext/src/internal/dashboardEmbedding/converters.ts:73-77 | Decoding the encoded elements gives the references back if and only if all references are of element 0's kind. A mixed list is encoded wholesale by element 0's kind. |
| `Converters.NumberOrStringToNumber` | libs/sdk-ui-ext/src/internal/dashboardEmbedding/converters.ts:68-70 | A number is returned unchanged. A signed decimal string becomes the integer it denotes. |
| `Converters.BoundToString` | libs/sdk-ui-ext/src/internal/dashboardEmbedding/converters.ts:60-61 | A numeric bound's `toString()` is the canonical decimal string of that number: it denotes the number, starts with `-` exactly for negative numbers, and otherwise has no sign and no leading zero. A string bound stays as it is. |
| `Converters.NumericStringBoundsAgree` | libs/sdk-ui-ext/src/internal/dashboardEmbedding/converters.ts:54-55 | A relative bound given as a number and the same bound given as its decimal string coerce to the same value. |
| `Converters.CoerceStringifiedBound` | libs/sdk-ui-ext/src/internal/dashboardEmbedding/converters.ts:54-61 | Coercing the stringified form of a bound, as an absolute filter writes it, gives what coercing the bound itself gives. |
| `NumberParsing.ParseIntSignedDecimal` | libs/sdk-ui-ext/src/internal/dashboardEmbedding/converters.ts:69 | `Number.parseInt` reads every optionally signed decimal string as the integer it denotes. |
| `NumberParsing.ParseIntReadsLeadingDecimal` | libs/sdk-ui-ext/src/internal/dashboardEmbedding/converters.ts:69 | `Number.parseInt` reads a leading signed decimal number and ignores what follows it, so `"12abc"` reads as 12, provided what follows does not start with a digit, `x` or `X` (`"0"` followed by `"x1"` is read as hexadecimal 1). |
| `NumberParsing.ParseIntSkipsWhiteSpace` | libs/sdk-ui-ext/src/internal/dashboardEmbedding/converters.ts:69 | Leading white space never changes what `Number.parseInt` reads. |
| `NumberParsing.ParseIntWithoutDigits` | libs/sdk-ui-ext/src/internal/dashboardEmbedding/converters.ts:69 | A string that cannot start a number reads as NaN. |
| `NumberParsing.IntToString` | libs/sdk-ui-ext/src/internal/dashboardEmbedding/converters.ts:60-61 | An integer's `toString()` is a signed decimal string denoting it. It starts with `-` exactly for negative numbers, never with `+`, and its digits have no leading zero. |
| `NumberParsing.NatToDecimal` | libs/sdk-ui-ext/src/internal/dashboardEmbedding/converters.ts:60-61 | The decimal digits of a natural number are non-empty, all digits, and have no leading zero (only 0 itself is written `0`). |
| `NumberParsing.DecimalRoundTrip` | libs/sdk-ui-ext/src/internal/dashboardEmbedding/converters.ts:60-61 | Reading back the digits written for `n` gives `n`. |
| `NumberParsing.CanonicalDecimalRoundTrip` | libs/sdk-ui-ext/src/internal/dashboardEmbedding/converters.ts:60-61 | Writing out the value of a digit string without leading zeros gives that string back. |
| `NumberParsing.IntToStringIsUnique` | libs/sdk-ui-ext/src/internal/dashboardEmbedding/converters.ts:60-61 | The only string that denotes `n`, starts with `-` exactly when `n` is negative, and has no leading zero is `IntToString(n)`, so its contract fixes the `toString()` output uniquely. |
| `NumberParsing.ParseIntOfIntToString` | libs/sdk-ui-ext/src/internal/dashboardEmbedding/converters.ts:54-61 | Parsing an integer's `toString()` gives the integer back. |
| `NumberParsing.LeadingDigitCount` | libs/sdk-ui-ext/src/internal/dashboardEmbedding/converters.ts:69 | The digits `parseInt` reads are the longest run of digits at the front of the string. |
| `NumberParsing.TrimStart` | libs/sdk-ui-ext/src/internal/dashboardEmbedding/converters.ts:69 | `parseInt` drops exactly the leading white space, and what remains does not start with white space. |
| `XirrBucketHelper.GetXirrBuckets` | libs/sdk-ui-ext/src/internal/components/pluggableVisualizations/xirr/xirrBucketHelper.ts:10-31 | There are always exactly two buckets, named MEASURES and ATTRIBUTE, with at most one item each. The measure item is the first measure of the measure-limited buckets. The date item is the first date item of the original buckets. Each bucket carries the other fields of the bucket found under its name, or none when no bucket was found. |
| `XirrBucketHelper.FirstAsList` | libs/sdk-ui-ext/src/internal/components/pluggableVisualizations/xirr/xirrBucketHelper.ts:17-29 | `x[0] ? [x[0]] : []` has at most one item. It is empty exactly when the list is, and otherwise holds the list's first item. |
| `XirrBucketHelper.Overriding` | libs/sdk-ui-ext/src/internal/components/pluggableVisualizations/xirr/xirrBucketHelper.ts:21-29 | The spread keeps every field of the found bucket except `localIdentifier` and `items`, which are overridden. Spreading an absent bucket contributes no field. |
| `XirrBucketHelper.XirrBucketsAreShaped` | libs/sdk-ui-ext/src/internal/components/pluggableVisualizations/xirr/xirrBucketHelper.ts:20-31 | Every reference point gives the XIRR shape, whatever the bucket helpers compute. |
| `XirrBucketHelper.XirrBucketsComeFromInput` | libs/sdk-ui-ext/src/internal/components/pluggableVisualizations/xirr/xirrBucketHelper.ts:10-31 | Take helpers that do what their names promise. Then the kept measure and date item are items of the reference point's buckets. The attribute bucket carries another bucket's fields exactly when the input has an ATTRIBUTE bucket, and then that bucket's fields. The measure bucket carries the fields of an input MEASURES bucket, or none, and none when the input has no MEASURES bucket. |

## Left out

- `KpiExecutor.tsx`: a React component built on asynchronous data hooks, loading and error
  rendering, and drill callbacks. Its value extraction goes through result-facade APIs whose
  source is not part of this model.
- `IWorkspaceFactsService` (`sdk-backend-spi/src/workspace/facts/index.ts`): an interface with
  one Promise-returning method and no logic.
- `sdk-backend-mockingbird/src/index.ts`: it only re-exports the dummy, recorded and decorated
  backends. Their implementation files are not part of this model, and neither is the rest of
  the backend abstraction (capabilities, decoration, result facade).
- sdk-model constructors (`newPositiveAttributeFilter` and the others) are datatype
  constructors. `isUriRef` is the `UriRef?` test.
- `objRefToString` is not part of this model. `SdkModel.ObjRefToString` stands in for it and
  returns the URI or the identifier. `Converters.ElementsRoundTripIffHomogeneous` relies on this
  stand-in.
- `isDashboardAttributeFilter` is the choice between the two constructors of
  `FilterContextItem`.
- Filter contexts: only their `filters` list is modelled. Stored and temporary contexts look the
  same here.
- Absolute date filter bounds are mandatory. The source asserts them non-null (`from!`, `to!`),
  so an absent bound would throw at run time, and that error is not modelled.
- `widget.dateDataSet` may be absent. It is passed on as is, as the source does.
- JavaScript numbers are integers plus NaN. Not modelled are:
  - fractional values;
  - `-0`;
  - the rounding of `parseInt` results above 2^53 to the nearest double;
  - the exponent notation `toString()` uses from 1e21 upwards.
- Attribute element strings and date strings are not validated, as in the source.
- `NumberOrStringToNumber`: its contract covers numbers and signed decimal strings. For other
  strings, the `NumberParsing` lemmas describe `parseInt`: leading white space, trailing text,
  and NaN.
- `limitNumberOfMeasuresInBuckets`, `findBucket`, `getMeasures` and `getDateItems`: their source
  is not part of this model, so they are parameters.
- Other fields of a bucket are modelled as a map from field name to serialised value. Bucket
  items are opaque records.
