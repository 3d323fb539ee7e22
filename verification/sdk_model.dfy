/**
 * The parts of the execution model (`@gooddata/sdk-model`) the filter
 * converter produces: object references, attribute element lists and the
 * four execution filter kinds. Their constructors become datatype
 * constructors here.
 */
module SdkModel {
  import opened Wrappers
  import opened NumberParsing

  /** A reference to a metadata object, either by URI or by identifier. */
  datatype ObjRef = UriRef(uri: string) | IdentifierRef(identifier: string)

  /**
   * The string form of a reference: its URI or its identifier. This stands in
   * for `objRefToString`, whose source is not part of this model.
   */
  function ObjRefToString(ref: ObjRef): string {
    match ref
    case UriRef(u) => u
    case IdentifierRef(id) => id
  }

  /** Attribute elements, listed either by URI or by value. */
  datatype AttributeElements = Uris(uris: seq<string>) | Values(values: seq<string>) {

    /** The listed entries, whichever way they are listed. */
    function Entries(): seq<string> {
      match this
      case Uris(us) => us
      case Values(vs) => vs
    }
  }

  /** An execution filter (`IFilter`), as built by the `new...Filter` constructors. */
  datatype Filter =
    | PositiveAttributeFilter(displayForm: ObjRef, elements: AttributeElements)
    | NegativeAttributeFilter(displayForm: ObjRef, elements: AttributeElements)
    | RelativeDateFilter(dataSet: Option<ObjRef>, granularity: string, from: JsNumber, to: JsNumber)
    | AbsoluteDateFilter(dataSet: Option<ObjRef>, fromDate: string, toDate: string)
  {
    predicate IsAttributeFilter() {
      PositiveAttributeFilter? || NegativeAttributeFilter?
    }

    predicate IsDateFilter() {
      RelativeDateFilter? || AbsoluteDateFilter?
    }
  }
}
