/** The export endpoint of fv3/viewsets/KoboExportsViewset.py: which
  * exports `get_queryset` lists, narrowing the viewset's `queryset` field
  * step by step, and the query and options `create` hands to the export
  * task. Query parameters are strings, so the project flag can only ever
  * equal "1". */
module KoboExports {
  import opened Common
  import opened JsonValues
  import opened ViewerViews

  /** An Export row: its FieldSightXF, site and form version. */
  datatype ExportRecord = ExportRecord(id: int, fsxf: Option<int>, site: Option<int>, version: Option<string>)

  /** The query parameters both actions read. */
  datatype ExportParams = ExportParams(id: Option<string>, fsxf: Option<string>, isProject: Option<string>,
                                       version: Option<string>)

  /** `id and fsxf and is_project`. */
  predicate Complete(p: ExportParams) { Given(p.id) && Given(p.fsxf) && Given(p.isProject) }

  /** `filter(fsxf=...)` and `filter(site=...)` on a key that is not a
    * number raise ValueError. */
  predicate Faults(p: ExportParams)
  {
    Complete(p) && (ParseInt(p.fsxf.value).None? || (!ProjectFlag(p.isProject) && ParseInt(p.id.value).None?))
  }

  /** The exports of one form (and, for a site listing, one site). */
  function ByForm(rows: seq<ExportRecord>, fsxf: int, site: Option<int>): (r: seq<ExportRecord>)
    ensures forall e :: e in r <==> e in rows && e.fsxf == Some(fsxf) && (site.Some? ==> e.site == site)
  {
    Where(rows, (e: ExportRecord) => e.fsxf == Some(fsxf) && (site.Some? ==> e.site == site))
  }

  /** What `get_queryset` lists: nothing without all three parameters, the
    * form's exports for a project listing, the form's exports at site `id`
    * otherwise, narrowed to one version when a version is given; None when
    * a key is not a number. */
  function Listing(rows: seq<ExportRecord>, p: ExportParams): (r: Option<seq<ExportRecord>>)
    ensures !Complete(p) ==> r == Some([])
    ensures r.None? <==> Faults(p)
    ensures r.Some? && Complete(p) ==> forall e :: e in r.value <==>
      e in rows && e.fsxf == ParseInt(p.fsxf.value) &&
      (!ProjectFlag(p.isProject) ==> e.site == ParseInt(p.id.value)) &&
      (Given(p.version) ==> e.version == p.version)
  {
    if !Complete(p) then Some([])
    else if Faults(p) then None
    else
      var base := ByForm(rows, ParseInt(p.fsxf.value).value,
                         if ProjectFlag(p.isProject) then None else ParseInt(p.id.value));
      Some(if Given(p.version) then ByVersion(base, p.version.value) else base)
  }

  /** `filter(version=v)`. */
  function ByVersion(rows: seq<ExportRecord>, v: string): (r: seq<ExportRecord>)
    ensures forall e :: e in r <==> e in rows && e.version == Some(v)
  {
    Where(rows, (e: ExportRecord) => e.version == Some(v))
  }

  /** A site listing is contained in the project listing of the same form. */
  lemma SiteListingWithinProjectListing(rows: seq<ExportRecord>, p: ExportParams)
    requires Complete(p) && !Faults(p) && !ProjectFlag(p.isProject)
    ensures Listing(rows, p).Some? && Listing(rows, p.(isProject := Some("1"))).Some?
    ensures forall e :: e in Listing(rows, p).value ==> e in Listing(rows, p.(isProject := Some("1"))).value
  {
  }

  /** The viewset; `queryset` starts as every export and `get_queryset`
    * narrows it in place. */
  class ExportViewSet {
    var queryset: seq<ExportRecord>

    constructor(all: seq<ExportRecord>)
      ensures queryset == all
    {
      queryset := all;
    }

    /** `get_queryset`: the field is narrowed by form (and site) when all
      * parameters are there; the version filter only shapes the answer. */
    method GetQueryset(p: ExportParams) returns (r: Option<seq<ExportRecord>>)
      modifies this
      ensures r == Listing(old(queryset), p)
      ensures r.Some? && Complete(p) ==>
        queryset == ByForm(old(queryset), ParseInt(p.fsxf.value).value,
                           if ProjectFlag(p.isProject) then None else ParseInt(p.id.value))
      ensures !Complete(p) || r.None? ==> queryset == old(queryset)
    {
      if !(Given(p.id) && Given(p.fsxf) && Given(p.isProject)) {
        return Some([]);
      }
      var form := ParseInt(p.fsxf.value);
      if form.None? {
        return None;
      }
      if p.isProject == Some("1") {
        queryset := ByForm(queryset, form.value, None);
      } else {
        var site := ParseInt(p.id.value);
        if site.None? {
          return None;
        }
        queryset := ByForm(queryset, form.value, site);
      }
      if Given(p.version) {
        return Some(ByVersion(queryset, p.version.value));
      }
      return Some(queryset);
    }
  }

  /** What `create` does: 400 'Parameters missing', a failure when `fsxf`
    * names no form, 400 for a bad delimiter, or 204 once the export task
    * is queued with this query, these options and this site. */
  datatype KoboOutcome = ParametersMissing | NoForm | InvalidDelimiter(message: string)
                       | Started(filter: seq<(string, Value)>, query: Value, options: ExportOptions, siteId: Option<string>)

  /** `create`. The form key in the query is `str(fsxf.id)`, the form's own
    * id written out, and the site is the `id` parameter as given. */
  method Create(p: ExportParams, forms: map<int, FieldSightForm>, post: ExportPost) returns (r: KoboOutcome)
    ensures r == ParametersMissing <==> !Complete(p)
    ensures r == NoForm <==> Complete(p) && FormById(p.fsxf.value, forms).None?
    ensures r.InvalidDelimiter? <==> (Complete(p) && FormById(p.fsxf.value, forms).Some? &&
      OptionsOf(post.delimiter, post.dontSplit, post.meta, false).BadRequest?)
    ensures r.Started? ==>
      var n := ParseInt(p.fsxf.value).value;
      r.filter == ExportFilter(ProjectFlag(p.isProject), IntToString(n),
                               !ProjectFlag(p.isProject) && forms[n].site.Some?, Str(p.id.value),
                               if p.version.Some? then Str(p.version.value) else Int(0)) &&
      r.query == AndNotDeleted(r.filter) &&
      OptionsOf(post.delimiter, post.dontSplit, post.meta, false) == Done(r.options) &&
      !r.options.binarySelectMultiples &&
      r.siteId == (if ProjectFlag(p.isProject) then None else p.id)
  {
    if !(Given(p.id) && Given(p.fsxf) && Given(p.isProject)) {
      return ParametersMissing;
    }
    var fsxf := FormById(p.fsxf.value, forms);
    if fsxf.None? {
      return NoForm;
    }
    var key := IntToString(ParseInt(p.fsxf.value).value);
    var siteId: Option<string>;
    var query: seq<(string, Value)>;
    if p.isProject == Some("1") {
      siteId := None;
      query := [("fs_project_uuid", Str(key))];
    } else {
      siteId := p.id;
      if fsxf.value.site.Some? {
        query := [("fs_uuid", Str(key))];
      } else {
        query := [("fs_project_uuid", Str(key)), ("fs_site", Str(siteId.value))];
      }
    }
    var version := if p.version.Some? then Str(p.version.value) else Int(0);
    if VersionGiven(version) {
      query := Put(query, "__version__", version);
    }
    var joined := AndNotDeleted(query);
    var options := OptionsOf(post.delimiter, post.dontSplit, post.meta, false);
    if options.BadRequest? {
      return InvalidDelimiter(options.message);
    }
    return Started(query, joined, options.value, siteId);
  }

  /** A project export reads the form's submissions at every site: its
    * filter does not depend on the site, nor on where the form is
    * attached. */
  lemma ProjectExportIgnoresSite(key: string, siteForm1: bool, siteForm2: bool, site1: Value, site2: Value, version: Value)
    ensures ExportFilter(true, key, siteForm1, site1, version) == ExportFilter(true, key, siteForm2, site2, version)
  {
  }

  /** A site-level form's export filter names no site: its submissions
    * carry the form's own key. */
  lemma SiteFormFilterHasNoSite(key: string, site: Value, version: Value)
    ensures Get(ExportFilter(false, key, true, site, version), "fs_site").None?
    ensures Get(ExportFilter(false, key, true, site, version), "fs_uuid") == Some(Str(key))
  {
  }
}
