/**
 * The dashboard filter-context converter: turns the filters of a dashboard's
 * filter context into execution filters for one widget.
 */
module Converters {
  import opened Wrappers
  import opened NumberParsing
  import opened SdkModel

  // ---------------------------------------------------------------------------
  // Dashboard filter context

  /** A bound of a dashboard date filter: a number, or a string (a date, or a number as text). */
  datatype DateBound = Num(n: int) | Str(s: string)

  datatype DateFilterType = Relative | Absolute

  /** One filter of a dashboard filter context. */
  datatype FilterContextItem =
    | DashboardAttributeFilter(displayForm: ObjRef, negativeSelection: bool, attributeElements: seq<ObjRef>)
    | DashboardDateFilter(dateType: DateFilterType, granularity: string, from: DateBound, to: DateBound)

  /**
   * A stored or a temporary filter context; both carry an ordered list of
   * filters, and nothing else about them is read here.
   */
  datatype FilterContext = FilterContext(filters: seq<FilterContextItem>)

  /** The one part of a widget definition the converter reads: its date data set, if any. */
  datatype Widget = Widget(dateDataSet: Option<ObjRef>)

  // ---------------------------------------------------------------------------
  // Helpers

  /**
   * `numberOrStringToNumber`: a number is kept as it is, a string is read
   * with `Number.parseInt`.
   */
  function NumberOrStringToNumber(b: DateBound): (r: JsNumber)
    ensures b.Num? ==> r == Int(b.n)
    ensures b.Str? && IsSignedDecimal(b.s) ==> r == Int(SignedDecimalValue(b.s))
  {
    match b
    case Num(n) => Int(n)
    case Str(s) =>
      if IsSignedDecimal(s) then
        ParseIntSignedDecimal(s);
        ParseInt(s)
      else
        ParseInt(s)
  }

  /** `toString()` of a date bound: a number's decimal digits, or the string itself. */
  function BoundToString(b: DateBound): (s: string)
    ensures b.Num? ==> IsSignedDecimal(s) && SignedDecimalValue(s) == b.n
    ensures b.Num? ==> (s[0] == '-' <==> b.n < 0) && IsCanonicalDecimal(if b.n < 0 then s[1..] else s)
    ensures b.Str? ==> s == b.s
  {
    match b
    case Num(n) => IntToString(n)
    case Str(s) => s
  }

  /** The string forms of a list of references, in order. */
  function RefsToStrings(refs: seq<ObjRef>): (r: seq<string>)
    ensures |r| == |refs|
    ensures forall i :: 0 <= i < |refs| ==> r[i] == ObjRefToString(refs[i])
  {
    if |refs| == 0 then [] else [ObjRefToString(refs[0])] + RefsToStrings(refs[1..])
  }

  /**
   * `filterContextAttributeElementsToElements`: the whole list is encoded as
   * URIs when its first element is a URI reference, and as values otherwise;
   * an empty list is an empty list of values.
   */
  function AttributeElementsToElements(refs: seq<ObjRef>): (e: AttributeElements)
    ensures |refs| == 0 ==> e == Values([])
    ensures |refs| > 0 ==> (e.Uris? <==> refs[0].UriRef?)
    ensures |e.Entries()| == |refs|
    ensures forall i :: 0 <= i < |refs| ==> e.Entries()[i] == ObjRefToString(refs[i])
  {
    if |refs| == 0 then Values([])
    else if refs[0].UriRef? then Uris(RefsToStrings(refs))
    else Values(RefsToStrings(refs))
  }

  // ---------------------------------------------------------------------------
  // The converter

  /** The execution filter for one dashboard filter, as the mapping callback builds it. */
  function FilterForWidget(f: FilterContextItem, widget: Widget): (r: Filter)
    ensures f.DashboardAttributeFilter? ==>
              && r.IsAttributeFilter()
              && (r.NegativeAttributeFilter? <==> f.negativeSelection)
              && r.displayForm == f.displayForm
              && r.elements == AttributeElementsToElements(f.attributeElements)
    ensures f.DashboardDateFilter? ==> r.IsDateFilter() && r.dataSet == widget.dateDataSet
    ensures f.DashboardDateFilter? && f.dateType == Relative ==>
              && r.RelativeDateFilter?
              && r.granularity == f.granularity
              && r.from == NumberOrStringToNumber(f.from)
              && r.to == NumberOrStringToNumber(f.to)
    ensures f.DashboardDateFilter? && f.dateType == Absolute ==>
              && r.AbsoluteDateFilter?
              && r.fromDate == BoundToString(f.from)
              && r.toDate == BoundToString(f.to)
  {
    match f
    case DashboardAttributeFilter(displayForm, negative, refs) =>
      if negative then NegativeAttributeFilter(displayForm, AttributeElementsToElements(refs))
      else PositiveAttributeFilter(displayForm, AttributeElementsToElements(refs))
    case DashboardDateFilter(dateType, granularity, from, to) =>
      if dateType == Relative then
        RelativeDateFilter(widget.dateDataSet, granularity, NumberOrStringToNumber(from), NumberOrStringToNumber(to))
      else
        AbsoluteDateFilter(widget.dateDataSet, BoundToString(from), BoundToString(to))
  }

  /** Converts a list of dashboard filters one by one, keeping their order. */
  function FiltersForWidget(filters: seq<FilterContextItem>, widget: Widget): (r: seq<Filter>)
    ensures |r| == |filters|
    ensures forall i :: 0 <= i < |filters| ==> r[i] == FilterForWidget(filters[i], widget)
  {
    if |filters| == 0 then []
    else [FilterForWidget(filters[0], widget)] + FiltersForWidget(filters[1..], widget)
  }

  /**
   * `filterContextToFiltersForWidget`: no filter context gives no filters;
   * otherwise each filter of the context is converted in place.
   */
  function FilterContextToFiltersForWidget(filterContext: Option<FilterContext>, widget: Widget): (r: seq<Filter>)
    ensures filterContext.None? ==> r == []
    ensures filterContext.Some? ==>
              && |r| == |filterContext.value.filters|
              && forall i :: 0 <= i < |r| ==> r[i] == FilterForWidget(filterContext.value.filters[i], widget)
  {
    match filterContext
    case None => []
    case Some(context) => FiltersForWidget(context.filters, widget)
  }

  // ---------------------------------------------------------------------------
  // Reading a conversion back

  /** The references an element encoding stands for: URI references for `uris`, identifiers for `values`. */
  function ElementsToRefs(e: AttributeElements): (refs: seq<ObjRef>)
    ensures |refs| == |e.Entries()|
    ensures forall i :: 0 <= i < |refs| ==> refs[i].UriRef? == e.Uris? && ObjRefToString(refs[i]) == e.Entries()[i]
  {
    match e
    case Uris(us) => seq(|us|, i requires 0 <= i < |us| => UriRef(us[i]))
    case Values(vs) => seq(|vs|, i requires 0 <= i < |vs| => IdentifierRef(vs[i]))
  }

  /** Every reference of the list is of the same kind as the first. */
  predicate Homogeneous(refs: seq<ObjRef>) {
    forall i :: 0 <= i < |refs| ==> refs[i].UriRef? == refs[0].UriRef?
  }

  /**
   * The element encoding loses nothing exactly when all references are of one
   * kind: a mixed list is encoded wholesale by the kind of its first element,
   * so its other-kind references come back as the wrong kind.
   */
  lemma {:induction false} ElementsRoundTripIffHomogeneous(refs: seq<ObjRef>)
    ensures ElementsToRefs(AttributeElementsToElements(refs)) == refs <==> Homogeneous(refs)
  {
    var back := ElementsToRefs(AttributeElementsToElements(refs));
    if Homogeneous(refs) {
      forall i | 0 <= i < |refs|
        ensures back[i] == refs[i]
      {
        assert back[i].UriRef? == refs[i].UriRef?;
        assert ObjRefToString(back[i]) == ObjRefToString(refs[i]);
      }
    } else {
      var i :| 0 <= i < |refs| && refs[i].UriRef? != refs[0].UriRef?;
      assert back[i].UriRef? != refs[i].UriRef?;
    }
  }

  /**
   * The dashboard filter a converted filter came from, as far as it can be
   * told; None when a relative bound did not parse.
   */
  function ContextItemOf(r: Filter): (f: Option<FilterContextItem>)
    ensures f.Some? ==> (f.value.DashboardAttributeFilter? <==> r.IsAttributeFilter())
  {
    match r
    case PositiveAttributeFilter(displayForm, e) => Some(DashboardAttributeFilter(displayForm, false, ElementsToRefs(e)))
    case NegativeAttributeFilter(displayForm, e) => Some(DashboardAttributeFilter(displayForm, true, ElementsToRefs(e)))
    case RelativeDateFilter(_, granularity, from, to) =>
      if from.Int? && to.Int? then Some(DashboardDateFilter(Relative, granularity, Num(from.value), Num(to.value)))
      else None
    case AbsoluteDateFilter(_, from, to) => Some(DashboardDateFilter(Absolute, "", Str(from), Str(to)))
  }

  /**
   * A dashboard filter in the form the conversion keeps intact: attribute
   * elements of one kind, relative bounds as numbers, absolute bounds as
   * strings and no granularity on an absolute filter (the conversion drops it).
   */
  predicate IsCanonicalItem(f: FilterContextItem) {
    match f
    case DashboardAttributeFilter(_, _, refs) => Homogeneous(refs)
    case DashboardDateFilter(Relative, _, from, to) => from.Num? && to.Num?
    case DashboardDateFilter(Absolute, granularity, from, to) => granularity == "" && from.Str? && to.Str?
  }

  /** Converting a canonical dashboard filter and reading it back gives the filter again. */
  lemma ContextItemOfFilterForWidget(f: FilterContextItem, widget: Widget)
    requires IsCanonicalItem(f)
    ensures ContextItemOf(FilterForWidget(f, widget)) == Some(f)
  {
    if f.DashboardAttributeFilter? {
      ElementsRoundTripIffHomogeneous(f.attributeElements);
    }
  }

  /** An absolute date filter's granularity has no effect on the execution filter. */
  lemma AbsoluteFilterIgnoresGranularity(f: FilterContextItem, granularity: string, widget: Widget)
    requires f.DashboardDateFilter? && f.dateType == Absolute
    ensures FilterForWidget(f.(granularity := granularity), widget) == FilterForWidget(f, widget)
  {
  }

  /**
   * A bound given as a number and the same bound given as its decimal string
   * coerce to the same relative offset.
   */
  lemma NumericStringBoundsAgree(n: int)
    ensures NumberOrStringToNumber(Str(IntToString(n))) == NumberOrStringToNumber(Num(n))
  {
  }

  /** Stringifying a bound, as an absolute filter does, and coercing it back loses nothing. */
  lemma CoerceStringifiedBound(b: DateBound)
    ensures NumberOrStringToNumber(Str(BoundToString(b))) == NumberOrStringToNumber(b)
  {
  }

  /**
   * Converting two lists of filters one after the other is converting their
   * concatenation: each output filter depends on its own input filter alone.
   */
  lemma FiltersForWidgetAppend(a: seq<FilterContextItem>, b: seq<FilterContextItem>, widget: Widget)
    ensures FiltersForWidget(a + b, widget) == FiltersForWidget(a, widget) + FiltersForWidget(b, widget)
  {
  }
}
