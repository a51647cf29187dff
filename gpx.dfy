/** `render_to_gpx` of geoshortcuts/gpx.py: a queryset of points becomes GPX
    waypoints, a queryset of line strings becomes GPX routes, an optional
    metadata dictionary becomes the `metadata` element, and the bounds of
    both querysets are combined.  The document is modelled as the tree the
    generated GPX binding classes would export. */
module Gpx {
  import opened Base
  import opened Text
  import opened Values
  import opened Geometry
  import Lookup

  const GpxVersion: string := "1.1"

  // ---------------------------------------------------------------- metadata input

  /** A dictionary entry: absent, present with None, or present with a value. */
  datatype Slot<+T> = Missing | Null | Given(value: T)

  /** `None if d.setdefault(k, None) is None else d[k]`. */
  function Opt<T>(s: Slot<T>): Option<T>
  {
    if s.Given? then Some(s.value) else None
  }

  datatype LinkDict = LinkDict(href: Slot<Value>, text: Slot<Value>, typ: Slot<Value>)
  datatype AuthorDict = AuthorDict(name: Slot<Value>, email: Slot<Value>, link: Slot<LinkDict>)
  datatype CopyrightDict = CopyrightDict(author: Slot<Value>, year: Slot<Value>, license: Slot<Value>)

  /** The `meta` dictionary; `links` is its `'link'` entry, a list. */
  datatype MetaDict = MetaDict(name: Slot<Value>, desc: Slot<Value>, author: Slot<AuthorDict>,
                               copyright: Slot<CopyrightDict>, links: Slot<seq<LinkDict>>,
                               time: Slot<Value>, keywords: Slot<Value>)

  // ---------------------------------------------------------------- metadata output

  datatype Link = Link(href: Option<Value>, text: Option<Value>, typ: Option<Value>)
  datatype Email = Email(id: string, domain: string)
  datatype Person = Person(name: Option<Value>, email: Option<Email>, link: Option<Link>)
  datatype Copyright = Copyright(author: Option<Value>, year: Option<int>, license: Option<Value>)
  datatype Metadata = Metadata(name: Option<Value>, desc: Option<Value>, author: Option<Person>,
                               copyright: Option<Copyright>, links: Option<seq<Link>>, time: Option<string>,
                               keywords: Option<Value>, bounds: Option<Bounds>)

  const NoMetadata := Metadata(None, None, None, None, None, None, None, None)

  // ---------------------------------------------------------------- metadata parsing

  /** A link dictionary: `href` is mandatory (KeyError when absent). */
  function LinkOf(d: LinkDict): (r: Result<Link>)
    ensures r.Err? <==> d.href.Missing?
    ensures r.Err? ==> r.error == KeyError("href")
    ensures r.Ok? ==> r.value.href == Opt(d.href) && r.value.text == Opt(d.text) && r.value.typ == Opt(d.typ)
  {
    if d.href.Missing? then Err(KeyError("href"))
    else Ok(Link(Opt(d.href), Opt(d.text), Opt(d.typ)))
  }

  /** `address.split('@')` and its first two pieces. */
  function SplitEmail(address: string): (r: Result<Email>)
    ensures r.Ok? <==> '@' in address
    ensures r.Err? ==> r.error == IndexError
    ensures r.Ok? ==> '@' !in r.value.id && '@' !in r.value.domain
  {
    var parts := Split(address, '@');
    SplitJoin(address, '@');
    OccurrencesIn(address, '@');
    if |parts| < 2 then Err(IndexError) else Ok(Email(parts[0], parts[1]))
  }

  /** An address with exactly one '@' is the identifier, '@' and the domain. */
  lemma EmailRoundTrip(address: string)
    requires Occurrences(address, '@') == 1
    ensures SplitEmail(address).Ok?
    ensures SplitEmail(address).value.id + "@" + SplitEmail(address).value.domain == address
  {
    SplitJoin(address, '@');
    OccurrencesIn(address, '@');
    var parts := Split(address, '@');
    assert Join(parts, '@') == parts[0] + ['@'] + Join(parts[1..], '@');
  }

  /** The author's `email` entry: absent gives no e-mail; `None` or a value
      that is not a string has no `split` method. */
  function EmailOf(s: Slot<Value>): (r: Result<Option<Email>>)
    ensures s.Missing? ==> r == Ok(None)
    ensures s.Null? ==> r == Err(AttributeError("split"))
    ensures s.Given? && (s.value.Bytes? || s.value.Unicode?) ==>
              (r.Ok? <==> '@' in TextOf(s.value)) && (r.Ok? ==> r.value.Some?)
    ensures s.Given? && !(s.value.Bytes? || s.value.Unicode?) ==> r == Err(AttributeError("split"))
  {
    match s
    case Missing => Ok(None)
    case Null => Err(AttributeError("split"))
    case Given(v) =>
      if v.Bytes? || v.Unicode? then
        var e := SplitEmail(TextOf(v));
        if e.Err? then Err(e.error) else Ok(Some(e.value))
      else Err(AttributeError("split"))
  }

  function AuthorOf(a: AuthorDict): (r: Result<Person>)
    ensures r.Ok? <==> EmailOf(a.email).Ok? && (a.link.Given? ==> !a.link.value.href.Missing?)
    ensures EmailOf(a.email).Err? ==> r == Err(EmailOf(a.email).error)
    ensures r.Ok? ==> r.value.name == Opt(a.name) && r.value.email == EmailOf(a.email).value &&
                      (r.value.link.Some? <==> a.link.Given?) &&
                      (a.link.Given? ==> r.value.link == Some(LinkOf(a.link.value).value))
  {
    var email := EmailOf(a.email);
    if email.Err? then Err(email.error)
    else
      var link := if a.link.Given? then LinkOf(a.link.value) else Ok(Link(None, None, None));
      if link.Err? then Err(link.error)
      else Ok(Person(Opt(a.name), email.value, if a.link.Given? then Some(link.value) else None))
  }

  /** `value.year` of a date or datetime; other values have no such attribute. */
  function YearOf(v: Value): (r: Result<int>)
    ensures r.Ok? <==> v.DateValue? || v.DateTimeValue?
    ensures r.Ok? ==> 1 <= r.value <= 9999
    ensures r.Err? ==> r.error == AttributeError("year")
  {
    match v
    case DateValue(d) => Ok(d.year)
    case DateTimeValue(dt) => Ok(dt.date.year)
    case _ => Err(AttributeError("year"))
  }

  function CopyrightOf(c: CopyrightDict): (r: Result<Copyright>)
    ensures c.author.Missing? ==> r == Err(KeyError("author"))
    ensures r.Ok? <==> !c.author.Missing? && (c.year.Given? ==> YearOf(c.year.value).Ok?)
    ensures r.Ok? ==> r.value.author == Opt(c.author) && r.value.license == Opt(c.license) &&
                      (r.value.year.Some? <==> c.year.Given?) &&
                      (c.year.Given? ==> r.value.year == Some(YearOf(c.year.value).value))
  {
    if c.author.Missing? then Err(KeyError("author"))
    else
      var year := if c.year.Given? then YearOf(c.year.value) else Ok(0);
      if year.Err? then Err(year.error)
      else Ok(Copyright(Opt(c.author), if c.year.Given? then Some(year.value) else None, Opt(c.license)))
  }

  /** `value.replace(microsecond=0).isoformat()`: a datetime's timestamp to
      the whole second.  A date or a string rejects the keyword (TypeError);
      other values have no `replace` method. */
  function TimeText(v: Value): (r: Result<string>)
    ensures r.Ok? <==> v.DateTimeValue?
    ensures r.Ok? ==> |r.value| == 19 && r.value == IsoFormat(v.dt, 'T')[..19] && IsAscii(r.value)
    ensures v.DateValue? || v.Bytes? || v.Unicode? ==> r == Err(TypeError)
  {
    if v.DateTimeValue? then
      TruncatedIsoFormat(v.dt, 'T');
      Ok(IsoFormat(TruncateToSecond(v.dt), 'T'))
    else if v.DateValue? || v.Bytes? || v.Unicode? then Err(TypeError)
    else Err(AttributeError("replace"))
  }

  /** The links of the `'link'` list, all of them, in order, as the loop is
      evidently meant to collect them. */
  function LinksOf(ds: seq<LinkDict>): (r: Result<seq<Link>>)
    ensures r.Ok? <==> forall k :: 0 <= k < |ds| ==> LinkOf(ds[k]).Ok?
    ensures r.Ok? ==> |r.value| == |ds| && forall k :: 0 <= k < |ds| ==> r.value[k] == LinkOf(ds[k]).value
    ensures r.Err? ==> exists k :: 0 <= k < |ds| && LinkOf(ds[k]).Err? && r.error == LinkOf(ds[k]).error
  {
    if ds == [] then Ok([])
    else
      var head := LinkOf(ds[0]);
      var tail := LinksOf(ds[1..]);
      assert forall k :: 1 <= k < |ds| ==> ds[k] == ds[1..][k - 1];
      if head.Err? then Err(head.error)
      else if tail.Err? then Err(tail.error)
      else Ok([head.value] + tail.value)
  }

  /** The links loop as written: the `append` sits after the loop, so only
      the last dictionary's link is kept, and an empty list leaves
      `link_href` unbound. */
  function LastLinkOf(ds: seq<LinkDict>): (r: Result<seq<Link>>)
    ensures ds == [] ==> r == Err(NameError("link_href"))
    ensures ds != [] ==> (r.Ok? <==> LinksOf(ds).Ok?)
    ensures ds != [] && r.Ok? ==> r.value == [LinkOf(ds[|ds| - 1]).value]
  {
    if ds == [] then Err(NameError("link_href"))
    else
      var all := LinksOf(ds);
      if all.Err? then Err(all.error) else Ok([LinkOf(ds[|ds| - 1]).value])
  }

  /** With two or more well-formed links the code as written loses all but
      the last; with none it fails, where the intended loop gives none. */
  lemma OnlyLastLinkKept(ds: seq<LinkDict>)
    ensures ds == [] ==> LinksOf(ds) == Ok([]) && LastLinkOf(ds).Err?
    ensures |ds| >= 2 && LinksOf(ds).Ok? ==>
              |LastLinkOf(ds).value| == 1 < |LinksOf(ds).value| == |ds| &&
              LastLinkOf(ds).value[0] == LinksOf(ds).value[|ds| - 1]
  {
  }

  /** The corrected `for dlink in dlinks` loop. */
  method ParseLinks(ds: seq<LinkDict>) returns (r: Result<seq<Link>>)
    ensures r.Ok? <==> LinksOf(ds).Ok?
    ensures r.Ok? ==> r == LinksOf(ds)
    ensures r.Err? ==> exists k :: 0 <= k < |ds| && LinkOf(ds[k]).Err? && r.error == LinkOf(ds[k]).error
  {
    var links: seq<Link> := [];
    for i := 0 to |ds|
      invariant |links| == i
      invariant forall k :: 0 <= k < i ==> LinkOf(ds[k]).Ok? && links[k] == LinkOf(ds[k]).value
    {
      var link := LinkOf(ds[i]);
      if link.Err? {
        return Err(link.error);
      }
      links := links + [link.value];
    }
    assert LinksOf(ds).Ok? && links == LinksOf(ds).value;
    return Ok(links);
  }

  /** The loop as written: each pass overwrites `link_href`, `link_text`
      and `link_type`; one link is built after the loop from the last pass. */
  method ParseLinksAsWritten(ds: seq<LinkDict>) returns (r: Result<seq<Link>>)
    ensures r == LastLinkOf(ds)
  {
    var last: Option<Link> := None;
    for i := 0 to |ds|
      invariant (i == 0) == last.None?
      invariant forall k :: 0 <= k < i ==> LinkOf(ds[k]).Ok?
      invariant i > 0 ==> last == Some(LinkOf(ds[i - 1]).value)
    {
      var link := LinkOf(ds[i]);
      if link.Err? {
        return Err(link.error);
      }
      last := Some(link.value);
    }
    if last.None? {
      return Err(NameError("link_href"));
    }
    return Ok([last.value]);
  }

  /** The metadata the dictionary describes, as `__parse_meta` is
      evidently meant to build it (every link kept). */
  function MetaOf(m: MetaDict): (r: Result<Metadata>)
    ensures r.Ok? <==> (m.author.Given? ==> AuthorOf(m.author.value).Ok?) &&
                       (m.copyright.Given? ==> CopyrightOf(m.copyright.value).Ok?) &&
                       (m.links.Given? ==> forall k :: 0 <= k < |m.links.value| ==> LinkOf(m.links.value[k]).Ok?) &&
                       (m.time.Given? ==> m.time.value.DateTimeValue?)
    ensures m.author.Given? && AuthorOf(m.author.value).Err? ==> r == Err(AuthorOf(m.author.value).error)
    ensures ((m.author.Given? ==> AuthorOf(m.author.value).Ok?) &&
             m.copyright.Given? && CopyrightOf(m.copyright.value).Err?) ==> r == Err(CopyrightOf(m.copyright.value).error)
    ensures r.Ok? ==>
              var md := r.value;
              md.name == Opt(m.name) && md.desc == Opt(m.desc) && md.keywords == Opt(m.keywords) &&
              (md.author.Some? <==> m.author.Given?) &&
              (m.author.Given? ==> md.author == Some(AuthorOf(m.author.value).value)) &&
              (md.copyright.Some? <==> m.copyright.Given?) &&
              (m.copyright.Given? ==> md.copyright == Some(CopyrightOf(m.copyright.value).value)) &&
              (md.links.Some? <==> m.links.Given?) &&
              (m.links.Given? ==> |md.links.value| == |m.links.value| &&
                                  forall k :: 0 <= k < |m.links.value| ==> md.links.value[k] == LinkOf(m.links.value[k]).value) &&
              (md.time.Some? <==> m.time.Given?) &&
              (m.time.Given? ==> |md.time.value| == 19 && md.time.value == IsoFormat(m.time.value.dt, 'T')[..19]) &&
              md.bounds.None?
  {
    var author := if m.author.Given? then AuthorOf(m.author.value) else Ok(Person(None, None, None));
    if author.Err? then Err(author.error)
    else
      var copyright := if m.copyright.Given? then CopyrightOf(m.copyright.value) else Ok(Copyright(None, None, None));
      if copyright.Err? then Err(copyright.error)
      else
        var links := if m.links.Given? then LinksOf(m.links.value) else Ok([]);
        if links.Err? then Err(links.error)
        else
          var time := if m.time.Given? then TimeText(m.time.value) else Ok("");
          if time.Err? then Err(time.error)
          else Ok(Metadata(Opt(m.name), Opt(m.desc),
                           if m.author.Given? then Some(author.value) else None,
                           if m.copyright.Given? then Some(copyright.value) else None,
                           if m.links.Given? then Some(links.value) else None,
                           if m.time.Given? then Some(time.value) else None,
                           Opt(m.keywords), None))
  }

  /** `__parse_meta`, with the corrected links loop. */
  method ParseMeta(m: MetaDict) returns (r: Result<Metadata>)
    ensures r == MetaOf(m)
  {
    var author: Option<Person> := None;
    if m.author.Given? {
      var a := AuthorOf(m.author.value);
      if a.Err? {
        return Err(a.error);
      }
      author := Some(a.value);
    }
    var copyright: Option<Copyright> := None;
    if m.copyright.Given? {
      var c := CopyrightOf(m.copyright.value);
      if c.Err? {
        return Err(c.error);
      }
      copyright := Some(c.value);
    }
    var links: Option<seq<Link>> := None;
    if m.links.Given? {
      var ls := ParseLinks(m.links.value);
      if ls.Err? {
        return Err(ls.error);
      }
      links := Some(ls.value);
    }
    var time: Option<string> := None;
    if m.time.Given? {
      var t := TimeText(m.time.value);
      if t.Err? {
        return Err(t.error);
      }
      time := Some(t.value);
    }
    return Ok(Metadata(Opt(m.name), Opt(m.desc), author, copyright, links, time, Opt(m.keywords), None));
  }

  // ---------------------------------------------------------------- GPX fields

  /** The GPX child elements a mapping may fill in. */
  datatype GpxField = Time | GeoidHeight | Name | Cmt | Desc | Src | Sym | Type | Sat | Hdop | Vdop | Pdop | Number

  function FieldName(f: GpxField): string
  {
    match f
    case Time => "time"
    case GeoidHeight => "geoidheight"
    case Name => "name"
    case Cmt => "cmt"
    case Desc => "desc"
    case Src => "src"
    case Sym => "sym"
    case Type => "type"
    case Sat => "sat"
    case Hdop => "hdop"
    case Vdop => "vdop"
    case Pdop => "pdop"
    case Number => "number"
  }

  /** The field a GPX element name denotes, if any. */
  function FieldByName(s: string): (r: Option<GpxField>)
    ensures r.Some? ==> FieldName(r.value) == s
  {
    if s == "time" then Some(Time)
    else if s == "geoidheight" then Some(GeoidHeight)
    else if s == "name" then Some(Name)
    else if s == "cmt" then Some(Cmt)
    else if s == "desc" then Some(Desc)
    else if s == "src" then Some(Src)
    else if s == "sym" then Some(Sym)
    else if s == "type" then Some(Type)
    else if s == "sat" then Some(Sat)
    else if s == "hdop" then Some(Hdop)
    else if s == "vdop" then Some(Vdop)
    else if s == "pdop" then Some(Pdop)
    else if s == "number" then Some(Number)
    else None
  }

  /** Every field is found again by its element name. */
  lemma FieldNamesRoundTrip(f: GpxField)
    ensures FieldByName(FieldName(f)) == Some(f)
  {
  }

  /** The keys of the waypoint converter table. */
  const WaypointFields: set<GpxField> := {Time, GeoidHeight, Name, Cmt, Desc, Src, Sym, Type, Sat, Hdop, Vdop, Pdop}

  /** The keys of the route converter table. */
  const RouteFields: set<GpxField> := {Name, Cmt, Desc, Src, Number, Type}

  /** A converted GPX field value. */
  datatype GpxValue = GText(text: string) | GDecimal(d: real) | GCount(n: nat) | GTime(stamp: string)

  /** `pos_int_constr`: `int(v)`, refused when negative. */
  function PosInt(v: Value, rt: Runtime): (r: Result<nat>)
    ensures r.Ok? <==> IntOf(v, rt).Ok? && IntOf(v, rt).value >= 0
    ensures IntOf(v, rt).Ok? && IntOf(v, rt).value < 0 ==> r == Err(ValueError)
    ensures r.Ok? ==> r.value == IntOf(v, rt).value
  {
    var i := IntOf(v, rt);
    if i.Err? then Err(i.error) else if i.value < 0 then Err(ValueError) else Ok(i.value)
  }

  /** The converter the table holds for a field: timestamps for `time`,
      `float` for the decimal fields, `unicode` for the text fields and
      `pos_int_constr` for the counts. */
  function Convert(f: GpxField, v: Value, rt: Runtime): (r: Result<GpxValue>)
    ensures f.Time? ==> (r.Ok? <==> v.DateTimeValue?) && (r.Ok? ==> r.value.GTime? && |r.value.stamp| == 19)
    ensures f in {GeoidHeight, Hdop, Vdop, Pdop} ==>
              (r.Ok? <==> FloatOf(v, rt).Ok?) && (r.Ok? ==> r.value == GDecimal(FloatOf(v, rt).value))
    ensures f in {Name, Cmt, Desc, Src, Sym, Type} ==>
              (r.Ok? <==> UnicodeOf(v, rt).Ok?) && (r.Ok? ==> r.value == GText(UnicodeOf(v, rt).value))
    ensures f in {Sat, Number} ==>
              (r.Ok? <==> IntOf(v, rt).Ok? && IntOf(v, rt).value >= 0) &&
              (r.Ok? ==> r.value == GCount(IntOf(v, rt).value))
  {
    match f
    case Time => var t := TimeText(v); if t.Err? then Err(t.error) else Ok(GTime(t.value))
    case GeoidHeight | Hdop | Vdop | Pdop =>
      var x := FloatOf(v, rt); if x.Err? then Err(x.error) else Ok(GDecimal(x.value))
    case Name | Cmt | Desc | Src | Sym | Type =>
      var t := UnicodeOf(v, rt); if t.Err? then Err(t.error) else Ok(GText(t.value))
    case Sat | Number =>
      var n := PosInt(v, rt); if n.Err? then Err(n.error) else Ok(GCount(n.value))
  }

  // ---------------------------------------------------------------- decoration

  /** A mapping dictionary's items, (GPX element name, model attribute name),
      in iteration order. */
  type Mapping = seq<(string, string)>

  predicate DistinctNames(mapping: Mapping)
  {
    forall i, j :: 0 <= i < j < |mapping| ==> mapping[i].0 != mapping[j].0
  }

  /** One pass of the decoration loop: a missing attribute raises
      AttributeError, a `None` value is skipped, an element name the table
      does not know raises KeyError, otherwise the converted value is set. */
  function Entry(rec: Record, e: (string, string), table: set<GpxField>, rt: Runtime): (r: Result<Option<(GpxField, GpxValue)>>)
    ensures e.1 !in rec.attrs ==> r == Err(AttributeError(e.1))
    ensures e.1 in rec.attrs && rec.attrs[e.1].Null? ==> r == Ok(None)
    ensures e.1 in rec.attrs && !rec.attrs[e.1].Null? && (FieldByName(e.0).None? || FieldByName(e.0).value !in table) ==>
              r == Err(KeyError(e.0))
    ensures r.Ok? && r.value.Some? ==> FieldName(r.value.value.0) == e.0 && r.value.value.0 in table &&
                                       Convert(r.value.value.0, rec.attrs[e.1], rt) == Ok(r.value.value.1)
  {
    if e.1 !in rec.attrs then Err(AttributeError(e.1))
    else if rec.attrs[e.1].Null? then Ok(None)
    else
      var f := FieldByName(e.0);
      if f.None? || f.value !in table then Err(KeyError(e.0))
      else
        var v := Convert(f.value, rec.attrs[e.1], rt);
        if v.Err? then Err(v.error) else Ok(Some((f.value, v.value)))
  }

  predicate Sets(rec: Record, e: (string, string), table: set<GpxField>, rt: Runtime)
  {
    Entry(rec, e, table, rt).Ok? && Entry(rec, e, table, rt).value.Some?
  }

  /** The decoration loop from the first entry of `mapping` on. */
  function AddDecorations(rec: Record, mapping: Mapping, table: set<GpxField>, rt: Runtime,
                          acc: map<GpxField, GpxValue>): Result<map<GpxField, GpxValue>>
    decreases |mapping|
  {
    if mapping == [] then Ok(acc)
    else
      var x := Entry(rec, mapping[0], table, rt);
      if x.Err? then Err(x.error)
      else AddDecorations(rec, mapping[1..], table, rt, if x.value.Some? then acc[x.value.value.0 := x.value.value.1] else acc)
  }

  function DecorationsOf(rec: Record, mapping: Mapping, table: set<GpxField>, rt: Runtime): Result<map<GpxField, GpxValue>>
  {
    AddDecorations(rec, mapping, table, rt, map[])
  }

  /** The decoration loop fails exactly when some entry does, with that
      entry's error. */
  lemma {:induction false} AddDecorationsFails(rec: Record, mapping: Mapping, table: set<GpxField>, rt: Runtime,
                                               acc: map<GpxField, GpxValue>)
    ensures var r := AddDecorations(rec, mapping, table, rt, acc);
            (r.Ok? <==> forall k :: 0 <= k < |mapping| ==> Entry(rec, mapping[k], table, rt).Ok?) &&
            (r.Err? ==> exists k :: 0 <= k < |mapping| && Entry(rec, mapping[k], table, rt).Err? &&
                                    r.error == Entry(rec, mapping[k], table, rt).error)
    decreases |mapping|
  {
    if mapping != [] {
      var rest := mapping[1..];
      assert forall k :: 1 <= k < |mapping| ==> mapping[k] == rest[k - 1];
      var x := Entry(rec, mapping[0], table, rt);
      if x.Ok? {
        var acc' := if x.value.Some? then acc[x.value.value.0 := x.value.value.1] else acc;
        AddDecorationsFails(rec, rest, table, rt, acc');
        var r := AddDecorations(rec, mapping, table, rt, acc);
        if r.Err? {
          var k :| 0 <= k < |rest| && Entry(rec, rest[k], table, rt).Err? && r.error == Entry(rec, rest[k], table, rt).error;
          assert mapping[k + 1] == rest[k];
        }
      }
    }
  }

  /** A field the loop ends with was already there or was set by an entry;
      a field no entry names keeps its value. */
  lemma {:induction false} AddDecorationsKeeps(rec: Record, mapping: Mapping, table: set<GpxField>, rt: Runtime,
                                               acc: map<GpxField, GpxValue>)
    requires AddDecorations(rec, mapping, table, rt, acc).Ok?
    ensures var r := AddDecorations(rec, mapping, table, rt, acc).value;
            (forall f :: f in r ==> f in acc || exists k :: 0 <= k < |mapping| && Sets(rec, mapping[k], table, rt) &&
                                                          Entry(rec, mapping[k], table, rt).value.value.0 == f) &&
            (forall f :: f in acc && (forall k :: 0 <= k < |mapping| ==> mapping[k].0 != FieldName(f)) ==>
               f in r && r[f] == acc[f])
    decreases |mapping|
  {
    if mapping != [] {
      var rest := mapping[1..];
      assert forall k :: 1 <= k < |mapping| ==> mapping[k] == rest[k - 1];
      var x := Entry(rec, mapping[0], table, rt);
      var acc' := if x.value.Some? then acc[x.value.value.0 := x.value.value.1] else acc;
      AddDecorationsKeeps(rec, rest, table, rt, acc');
      var r := AddDecorations(rec, mapping, table, rt, acc).value;
      forall f | f in r
        ensures f in acc || exists k :: 0 <= k < |mapping| && Sets(rec, mapping[k], table, rt) &&
                                        Entry(rec, mapping[k], table, rt).value.value.0 == f
      {
        if f !in acc' {
          var k :| 0 <= k < |rest| && Sets(rec, rest[k], table, rt) && Entry(rec, rest[k], table, rt).value.value.0 == f;
          assert mapping[k + 1] == rest[k];
        } else if f !in acc {
          assert Sets(rec, mapping[0], table, rt);
        }
      }
    }
  }

  /** With distinct element names, every entry that sets a field leaves its
      converted value in the result. */
  lemma {:induction false} AddDecorationsSets(rec: Record, mapping: Mapping, table: set<GpxField>, rt: Runtime,
                                              acc: map<GpxField, GpxValue>)
    requires DistinctNames(mapping) && AddDecorations(rec, mapping, table, rt, acc).Ok?
    ensures var r := AddDecorations(rec, mapping, table, rt, acc).value;
            forall k :: 0 <= k < |mapping| && Sets(rec, mapping[k], table, rt) ==>
              Entry(rec, mapping[k], table, rt).value.value.0 in r &&
              r[Entry(rec, mapping[k], table, rt).value.value.0] == Entry(rec, mapping[k], table, rt).value.value.1
    decreases |mapping|
  {
    if mapping != [] {
      var rest := mapping[1..];
      assert forall k :: 1 <= k < |mapping| ==> mapping[k] == rest[k - 1];
      assert DistinctNames(rest);
      var x := Entry(rec, mapping[0], table, rt);
      var acc' := if x.value.Some? then acc[x.value.value.0 := x.value.value.1] else acc;
      AddDecorationsSets(rec, rest, table, rt, acc');
      if x.value.Some? {
        var f := x.value.value.0;
        assert forall k :: 0 <= k < |rest| ==> rest[k].0 != FieldName(f);
        AddDecorationsKeeps(rec, rest, table, rt, acc');
      }
    }
  }

  /** Decoration fails exactly when some entry does, with that entry's
      error; otherwise the fields set are exactly those the entries set
      (the entries whose attribute is not None), each to its converted
      value. */
  lemma DecorationsMeaning(rec: Record, mapping: Mapping, table: set<GpxField>, rt: Runtime)
    requires DistinctNames(mapping)
    ensures var r := DecorationsOf(rec, mapping, table, rt);
            (r.Ok? <==> forall k :: 0 <= k < |mapping| ==> Entry(rec, mapping[k], table, rt).Ok?) &&
            (r.Err? ==> exists k :: 0 <= k < |mapping| && Entry(rec, mapping[k], table, rt).Err? &&
                                    r.error == Entry(rec, mapping[k], table, rt).error) &&
            (r.Ok? ==> forall f :: f in r.value <==> exists k :: 0 <= k < |mapping| && Sets(rec, mapping[k], table, rt) &&
                                                              Entry(rec, mapping[k], table, rt).value.value.0 == f) &&
            (r.Ok? ==> forall k :: 0 <= k < |mapping| && Sets(rec, mapping[k], table, rt) ==>
                         Entry(rec, mapping[k], table, rt).value.value.0 in r.value &&
                         r.value[Entry(rec, mapping[k], table, rt).value.value.0] == Entry(rec, mapping[k], table, rt).value.value.1)
  {
    AddDecorationsFails(rec, mapping, table, rt, map[]);
    if DecorationsOf(rec, mapping, table, rt).Ok? {
      AddDecorationsKeeps(rec, mapping, table, rt, map[]);
      AddDecorationsSets(rec, mapping, table, rt, map[]);
    }
  }

  /** `__decorate_waypoint` and `__decorate_route`: the two differ only in
      their converter table. */
  method Decorate(rec: Record, mapping: Mapping, table: set<GpxField>, rt: Runtime)
    returns (r: Result<map<GpxField, GpxValue>>)
    ensures r == DecorationsOf(rec, mapping, table, rt)
  {
    var fields: map<GpxField, GpxValue> := map[];
    for i := 0 to |mapping|
      invariant DecorationsOf(rec, mapping, table, rt) == AddDecorations(rec, mapping[i..], table, rt, fields)
    {
      assert mapping[i..][0] == mapping[i] && mapping[i..][1..] == mapping[i + 1..];
      var gpxName := mapping[i].0;
      var attr := mapping[i].1;
      if attr !in rec.attrs {
        return Err(AttributeError(attr));
      }
      var value := rec.attrs[attr];
      if value.Null? {
        continue;
      }
      var f := FieldByName(gpxName);
      if f.None? || f.value !in table {
        return Err(KeyError(gpxName));
      }
      var converted := Convert(f.value, value, rt);
      if converted.Err? {
        return Err(converted.error);
      }
      fields := fields[f.value := converted.value];
    }
    return Ok(fields);
  }

  // ---------------------------------------------------------------- waypoints and routes

  datatype Waypoint = Waypoint(lon: real, lat: real, ele: Option<real>, fields: map<GpxField, GpxValue>)
  datatype Route = Route(points: seq<Waypoint>, fields: map<GpxField, GpxValue>)

  /** A point record as a waypoint: `get_x`, `get_y`, `get_z` of its
      geometry (only a point has them), then the optional decoration. */
  function WaypointOf(poi: Record, mapping: Option<Mapping>, rt: Runtime): (r: Result<Waypoint>)
    ensures r.Ok? <==> poi.geom.kind == Point && (mapping.Some? ==> DecorationsOf(poi, mapping.value, WaypointFields, rt).Ok?)
    ensures poi.geom.kind != Point ==> r == Err(AttributeError("get_x"))
    ensures r.Ok? ==> var c := poi.geom.coords[0];
                      r.value.lon == c.x && r.value.lat == c.y && r.value.ele == c.z &&
                      r.value.fields == (if mapping.Some? then DecorationsOf(poi, mapping.value, WaypointFields, rt).value else map[])
  {
    if poi.geom.kind != Point then Err(AttributeError("get_x"))
    else
      var c := poi.geom.coords[0];
      var fields := if mapping.Some? then DecorationsOf(poi, mapping.value, WaypointFields, rt) else Ok(map[]);
      if fields.Err? then Err(fields.error) else Ok(Waypoint(c.x, c.y, c.z, fields.value))
  }

  /** A line string's vertices as route points: with elevation when its
      first vertex has three components (every vertex must then have one,
      else IndexError), without otherwise.  `len()` of a point's first
      component fails with TypeError; a polygon's rings are not numbers,
      which the export refuses with TypeError. */
  function RoutePoints(g: Geometry): (r: Result<seq<Waypoint>>)
    ensures r.Ok? <==> g.kind == LineString && (g.coords[0].z.Some? ==> forall k :: 0 <= k < |g.coords| ==> g.coords[k].z.Some?)
    ensures g.kind != LineString ==> r == Err(TypeError)
    ensures g.kind == LineString && g.coords[0].z.Some? && (exists k :: 0 <= k < |g.coords| && g.coords[k].z.None?) ==>
              r == Err(IndexError)
    ensures r.Ok? ==> |r.value| == |g.coords| &&
                      forall k :: 0 <= k < |g.coords| ==>
                        r.value[k].lon == g.coords[k].x && r.value[k].lat == g.coords[k].y && r.value[k].fields == map[] &&
                        r.value[k].ele == (if g.coords[0].z.Some? then g.coords[k].z else None)
  {
    var cs := g.coords;
    if g.kind != LineString then Err(TypeError)
    else if cs[0].z.Some? then
      if forall k :: 0 <= k < |cs| ==> cs[k].z.Some? then
        Ok(seq(|cs|, k requires 0 <= k < |cs| => Waypoint(cs[k].x, cs[k].y, cs[k].z, map[])))
      else Err(IndexError)
    else Ok(seq(|cs|, k requires 0 <= k < |cs| => Waypoint(cs[k].x, cs[k].y, None, map[])))
  }

  function RouteOf(path: Record, mapping: Option<Mapping>, rt: Runtime): (r: Result<Route>)
    ensures r.Ok? <==> RoutePoints(path.geom).Ok? && (mapping.Some? ==> DecorationsOf(path, mapping.value, RouteFields, rt).Ok?)
    ensures r.Ok? ==> r.value.points == RoutePoints(path.geom).value &&
                      r.value.fields == (if mapping.Some? then DecorationsOf(path, mapping.value, RouteFields, rt).value else map[])
  {
    var points := RoutePoints(path.geom);
    if points.Err? then Err(points.error)
    else
      var fields := if mapping.Some? then DecorationsOf(path, mapping.value, RouteFields, rt) else Ok(map[]);
      if fields.Err? then Err(fields.error) else Ok(Route(points.value, fields.value))
  }

  /** The `for poi in poi_queryset` loop from the first record of `pois` on. */
  function AddWaypoints(pois: seq<Record>, mapping: Option<Mapping>, rt: Runtime, acc: seq<Waypoint>): Result<seq<Waypoint>>
    decreases |pois|
  {
    if pois == [] then Ok(acc)
    else
      var w := WaypointOf(pois[0], mapping, rt);
      if w.Err? then Err(w.error) else AddWaypoints(pois[1..], mapping, rt, acc + [w.value])
  }

  /** The `for path in path_queryset` loop from the first record of `paths` on. */
  function AddRoutes(paths: seq<Record>, mapping: Option<Mapping>, rt: Runtime, acc: seq<Route>): Result<seq<Route>>
    decreases |paths|
  {
    if paths == [] then Ok(acc)
    else
      var rte := RouteOf(paths[0], mapping, rt);
      if rte.Err? then Err(rte.error) else AddRoutes(paths[1..], mapping, rt, acc + [rte.value])
  }

  lemma {:induction false} AddWaypointsMeaning(pois: seq<Record>, mapping: Option<Mapping>, rt: Runtime, acc: seq<Waypoint>)
    ensures var r := AddWaypoints(pois, mapping, rt, acc);
            (r.Ok? <==> forall i :: 0 <= i < |pois| ==> WaypointOf(pois[i], mapping, rt).Ok?) &&
            (r.Ok? ==> |r.value| == |acc| + |pois| && r.value[..|acc|] == acc &&
                       forall i :: 0 <= i < |pois| ==> r.value[|acc| + i] == WaypointOf(pois[i], mapping, rt).value) &&
            (r.Err? ==> exists i :: 0 <= i < |pois| && WaypointOf(pois[i], mapping, rt) == Err(r.error))
    decreases |pois|
  {
    if pois != [] {
      var w := WaypointOf(pois[0], mapping, rt);
      assert forall i :: 1 <= i < |pois| ==> pois[i] == pois[1..][i - 1];
      if w.Ok? {
        var acc' := acc + [w.value];
        AddWaypointsMeaning(pois[1..], mapping, rt, acc');
        var r := AddWaypoints(pois, mapping, rt, acc);
        if r.Ok? {
          assert r.value[..|acc'|][..|acc|] == r.value[..|acc|];
          forall i | 0 <= i < |pois| ensures r.value[|acc| + i] == WaypointOf(pois[i], mapping, rt).value {
            if i == 0 {
              assert r.value[|acc|] == r.value[..|acc'|][|acc|];
            } else {
              assert r.value[|acc'| + (i - 1)] == WaypointOf(pois[1..][i - 1], mapping, rt).value;
            }
          }
        } else {
          var i :| 0 <= i < |pois[1..]| && WaypointOf(pois[1..][i], mapping, rt) == Err(r.error);
          assert pois[i + 1] == pois[1..][i];
        }
      }
    }
  }

  lemma {:induction false} AddRoutesMeaning(paths: seq<Record>, mapping: Option<Mapping>, rt: Runtime, acc: seq<Route>)
    ensures var r := AddRoutes(paths, mapping, rt, acc);
            (r.Ok? <==> forall i :: 0 <= i < |paths| ==> RouteOf(paths[i], mapping, rt).Ok?) &&
            (r.Ok? ==> |r.value| == |acc| + |paths| && r.value[..|acc|] == acc &&
                       forall i :: 0 <= i < |paths| ==> r.value[|acc| + i] == RouteOf(paths[i], mapping, rt).value) &&
            (r.Err? ==> exists i :: 0 <= i < |paths| && RouteOf(paths[i], mapping, rt) == Err(r.error))
    decreases |paths|
  {
    if paths != [] {
      var rte := RouteOf(paths[0], mapping, rt);
      assert forall i :: 1 <= i < |paths| ==> paths[i] == paths[1..][i - 1];
      if rte.Ok? {
        var acc' := acc + [rte.value];
        AddRoutesMeaning(paths[1..], mapping, rt, acc');
        var r := AddRoutes(paths, mapping, rt, acc);
        if r.Ok? {
          assert r.value[..|acc'|][..|acc|] == r.value[..|acc|];
          forall i | 0 <= i < |paths| ensures r.value[|acc| + i] == RouteOf(paths[i], mapping, rt).value {
            if i == 0 {
              assert r.value[|acc|] == r.value[..|acc'|][|acc|];
            } else {
              assert r.value[|acc'| + (i - 1)] == RouteOf(paths[1..][i - 1], mapping, rt).value;
            }
          }
        } else {
          var i :| 0 <= i < |paths[1..]| && RouteOf(paths[1..][i], mapping, rt) == Err(r.error);
          assert paths[i + 1] == paths[1..][i];
        }
      }
    }
  }

  /** One waypoint per point record, in order; the loop fails exactly when
      some record's waypoint does. */
  method BuildWaypoints(pois: seq<Record>, mapping: Option<Mapping>, rt: Runtime) returns (r: Result<seq<Waypoint>>)
    ensures r == AddWaypoints(pois, mapping, rt, [])
    ensures r.Ok? <==> forall i :: 0 <= i < |pois| ==> WaypointOf(pois[i], mapping, rt).Ok?
    ensures r.Ok? ==> |r.value| == |pois| && forall i :: 0 <= i < |pois| ==> r.value[i] == WaypointOf(pois[i], mapping, rt).value
  {
    AddWaypointsMeaning(pois, mapping, rt, []);
    var wpts: seq<Waypoint> := [];
    for i := 0 to |pois|
      invariant AddWaypoints(pois, mapping, rt, []) == AddWaypoints(pois[i..], mapping, rt, wpts)
    {
      assert pois[i..][0] == pois[i] && pois[i..][1..] == pois[i + 1..];
      var poi := pois[i];
      if poi.geom.kind != Point {
        return Err(AttributeError("get_x"));
      }
      var c := poi.geom.coords[0];
      var wpt := Waypoint(c.x, c.y, c.z, map[]);
      if mapping.Some? {
        var fields := Decorate(poi, mapping.value, WaypointFields, rt);
        if fields.Err? {
          return Err(fields.error);
        }
        wpt := wpt.(fields := fields.value);
      }
      wpts := wpts + [wpt];
    }
    return Ok(wpts);
  }

  /** One route per line-string record, in order. */
  method BuildRoutes(paths: seq<Record>, mapping: Option<Mapping>, rt: Runtime) returns (r: Result<seq<Route>>)
    ensures r == AddRoutes(paths, mapping, rt, [])
    ensures r.Ok? <==> forall i :: 0 <= i < |paths| ==> RouteOf(paths[i], mapping, rt).Ok?
    ensures r.Ok? ==> |r.value| == |paths| && forall i :: 0 <= i < |paths| ==> r.value[i] == RouteOf(paths[i], mapping, rt).value
  {
    AddRoutesMeaning(paths, mapping, rt, []);
    var rtes: seq<Route> := [];
    for i := 0 to |paths|
      invariant AddRoutes(paths, mapping, rt, []) == AddRoutes(paths[i..], mapping, rt, rtes)
    {
      assert paths[i..][0] == paths[i] && paths[i..][1..] == paths[i + 1..];
      var path := paths[i];
      var points := RoutePoints(path.geom);
      if points.Err? {
        return Err(points.error);
      }
      var rte := Route(points.value, map[]);
      if mapping.Some? {
        var fields := Decorate(path, mapping.value, RouteFields, rt);
        if fields.Err? {
          return Err(fields.error);
        }
        rte := rte.(fields := fields.value);
      }
      rtes := rtes + [rte];
    }
    return Ok(rtes);
  }

  // ---------------------------------------------------------------- document

  datatype GpxDoc = GpxDoc(version: string, creator: string, metadata: Metadata, wpts: seq<Waypoint>, rtes: seq<Route>)

  /** The bounds one optional queryset contributes: its extent, or the
      empty bounds when it is absent or has no record. */
  function QuerySetBounds(qs: Option<QuerySet>): Bounds
  {
    if qs.None? || |qs.value.records| == 0 then EmptyBounds else BoundsOf(Extent(qs.value.records))
  }

  /** The bounds of the document hold every coordinate of both querysets,
      and with only one non-empty queryset they are its own extent. */
  lemma DocumentBounds(poi: Option<QuerySet>, path: Option<QuerySet>)
    ensures var b := Combine(QuerySetBounds(poi), QuerySetBounds(path));
            (poi.Some? ==> forall i, j :: 0 <= i < |poi.value.records| && 0 <= j < |poi.value.records[i].geom.coords| ==>
                             Within(b, poi.value.records[i].geom.coords[j])) &&
            (path.Some? ==> forall i, j :: 0 <= i < |path.value.records| && 0 <= j < |path.value.records[i].geom.coords| ==>
                              Within(b, path.value.records[i].geom.coords[j])) &&
            (QuerySetBounds(path) == EmptyBounds ==> b == QuerySetBounds(poi)) &&
            (QuerySetBounds(poi) == EmptyBounds ==> b == QuerySetBounds(path))
  {
    var pb, qb := QuerySetBounds(poi), QuerySetBounds(path);
    CombineIdentity(pb);
    CombineIdentity(qb);
    if poi.Some? {
      var rs := poi.value.records;
      forall i, j | 0 <= i < |rs| && 0 <= j < |rs[i].geom.coords| ensures Within(Combine(pb, qb), rs[i].geom.coords[j]) {
        ExtentWithin(rs, i, j);
        CombineWithin(pb, qb, rs[i].geom.coords[j]);
      }
    }
    if path.Some? {
      var rs := path.value.records;
      forall i, j | 0 <= i < |rs| && 0 <= j < |rs[i].geom.coords| ensures Within(Combine(pb, qb), rs[i].geom.coords[j]) {
        ExtentWithin(rs, i, j);
        CombineWithin(pb, qb, rs[i].geom.coords[j]);
      }
    }
  }

  /** `render_to_gpx`, with the corrected metadata links. */
  method RenderToGpx(creator: string, poi: Option<QuerySet>, path: Option<QuerySet>, meta: Option<MetaDict>,
                     poiMapping: Option<Mapping>, pathMapping: Option<Mapping>, rt: Runtime)
    returns (r: Result<GpxDoc>)
    ensures poi.None? && path.None? ==> r == Err(ValueError)
    ensures r.Ok? <==> (poi.Some? || path.Some?) &&
                       (meta.Some? ==> MetaOf(meta.value).Ok?) &&
                       (poi.Some? ==> Lookup.GeomFieldName(poi.value.schema.fields).Some? &&
                                      AddWaypoints(poi.value.records, poiMapping, rt, []).Ok?) &&
                       (path.Some? ==> Lookup.GeomFieldName(path.value.schema.fields).Some? &&
                                       AddRoutes(path.value.records, pathMapping, rt, []).Ok?)
    ensures r.Ok? ==>
              var doc := r.value;
              var bounds := Combine(QuerySetBounds(poi), QuerySetBounds(path));
              doc.version == GpxVersion && doc.creator == creator &&
              doc.metadata == (if meta.Some? then MetaOf(meta.value).value else NoMetadata).(bounds := Some(bounds)) &&
              |doc.wpts| == (if poi.Some? then |poi.value.records| else 0) &&
              |doc.rtes| == (if path.Some? then |path.value.records| else 0) &&
              (poi.Some? ==> forall i :: 0 <= i < |doc.wpts| ==> WaypointOf(poi.value.records[i], poiMapping, rt).Ok? &&
                                                                  doc.wpts[i] == WaypointOf(poi.value.records[i], poiMapping, rt).value) &&
              (path.Some? ==> forall i :: 0 <= i < |doc.rtes| ==> RouteOf(path.value.records[i], pathMapping, rt).Ok? &&
                                                                   doc.rtes[i] == RouteOf(path.value.records[i], pathMapping, rt).value)
    ensures r.Ok? ==>
              var doc := r.value;
              var b := doc.metadata.bounds.value;
              (forall i :: 0 <= i < |doc.wpts| ==> Within(b, Coord(doc.wpts[i].lon, doc.wpts[i].lat, None))) &&
              (forall i, k :: 0 <= i < |doc.rtes| && 0 <= k < |doc.rtes[i].points| ==>
                 Within(b, Coord(doc.rtes[i].points[k].lon, doc.rtes[i].points[k].lat, None)))
  {
    if poi.None? && path.None? {
      return Err(ValueError);
    }
    var bounds := Combine(QuerySetBounds(poi), QuerySetBounds(path));
    DocumentBounds(poi, path);
    var metadata: Metadata;
    if meta.Some? {
      var parsed := ParseMeta(meta.value);
      if parsed.Err? {
        return Err(parsed.error);
      }
      metadata := parsed.value.(bounds := Some(bounds));
    } else {
      metadata := NoMetadata.(bounds := Some(bounds));
    }
    var wpts: seq<Waypoint> := [];
    if poi.Some? {
      var geomField := Lookup.FindGeomField(poi.value.schema.fields);
      if geomField.Err? {
        return Err(geomField.error);
      }
      var built := BuildWaypoints(poi.value.records, poiMapping, rt);
      if built.Err? {
        return Err(built.error);
      }
      wpts := built.value;
      var rs := poi.value.records;
      forall i | 0 <= i < |wpts| ensures Within(bounds, Coord(wpts[i].lon, wpts[i].lat, None)) {
        assert Within(bounds, rs[i].geom.coords[0]);
      }
    }
    var rtes: seq<Route> := [];
    if path.Some? {
      var geomField := Lookup.FindGeomField(path.value.schema.fields);
      if geomField.Err? {
        return Err(geomField.error);
      }
      var built := BuildRoutes(path.value.records, pathMapping, rt);
      if built.Err? {
        return Err(built.error);
      }
      rtes := built.value;
      var rs := path.value.records;
      forall i, k | 0 <= i < |rtes| && 0 <= k < |rtes[i].points|
        ensures Within(bounds, Coord(rtes[i].points[k].lon, rtes[i].points[k].lat, None))
      {
        assert Within(bounds, rs[i].geom.coords[k]);
      }
    }
    return Ok(GpxDoc(GpxVersion, creator, metadata, wpts, rtes));
  }
}
