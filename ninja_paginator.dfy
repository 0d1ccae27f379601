/** The NinjaPaginator decorator object: after the wrapped view has returned its
    dictionary, `Decorate` replaces the object list by the current page's objects,
    adds the paging keys and runs the configured style, which writes its page
    numbers into the same dictionary. */
module Util {
  import opened Wrappers
  import opened PageWindows

  /** A value in the view's output dictionary. `Other` stands for anything the
      view or Django's Paginator puts there that the paginator only moves around
      (the object list, the current page's objects, the view's own entries). */
  datatype Value = Number(n: int) | PageNumbers(pages: seq<int>) | Flag(b: bool) | Other(handle: nat)

  datatype Error =
    | MissingObjectList   // `dict.pop` of the object-list key raises KeyError
    | PageNotFound        // Django's EmptyPage, turned into Http404
    | UnknownStyle        // `getattr` finds no `<style>_style` method

  datatype Style = Digg | Filmfeed

  /** The decorator's default arguments. */
  const DefaultObjectList := "object_list"
  const DefaultStyle := "digg"
  const DefaultPerPage := 10
  const DefaultFrameSize := 8

  /** The keys each style may write. */
  const DiggKeys: set<string> := {"PREVIOUS", "NEXT", "left_page_numbers", "middle_page_numbers", "right_page_numbers"}
  const FilmfeedKeys: set<string> := {"page_numbers"}

  function StyleKeys(s: Style): set<string>
  {
    match s
    case Digg => DiggKeys
    case Filmfeed => FilmfeedKeys
  }

  /** The style methods of the class, by attribute name. */
  const StyleMethods: map<string, Style> := map["digg_style" := Digg, "filmfeed_style" := Filmfeed]

  lemma SuffixedNames(name: string)
    ensures name + "_style" == "digg_style" <==> name == "digg"
    ensures name + "_style" == "filmfeed_style" <==> name == "filmfeed"
  {
    var a := name + "_style";
    if a == "digg_style" {
      assert |name| == 4;
      assert name == a[..4];
    }
    if a == "filmfeed_style" {
      assert |name| == 8;
      assert name == a[..8];
    }
  }

  /** `getattr(self, "%s_style" % style)`: the style method the name selects, if any.
      "digg" selects digg_style, "filmfeed" selects filmfeed_style, and every other name selects nothing. */
  function StyleNamed(name: string): (r: Option<Style>)
    ensures r == Some(Digg) <==> name == "digg"
    ensures r == Some(Filmfeed) <==> name == "filmfeed"
    ensures r.None? <==> name != "digg" && name != "filmfeed"
  {
    SuffixedNames(name);
    var attribute := name + "_style";
    if attribute in StyleMethods then Some(StyleMethods[attribute]) else None
  }

  /** Writes `key := v` when a value is given, and leaves the dictionary alone otherwise. */
  function Put(m: map<string, Value>, key: string, v: Option<Value>): map<string, Value>
  {
    if v.Some? then m[key := v.value] else m
  }

  function NumberOf(o: Option<int>): Option<Value>
  {
    if o.Some? then Some(Number(o.value)) else None
  }

  function PagesOf(o: Option<seq<int>>): Option<Value>
  {
    if o.Some? then Some(PageNumbers(o.value)) else None
  }

  /** The dictionary after digg_style has written the view `d` into `m`: keys
      other than the five digg keys keep their presence and their value. */
  function WithDigg(m: map<string, Value>, d: DiggView): (r: map<string, Value>)
    ensures forall k :: k !in DiggKeys ==> (k in r <==> k in m) && (k in m ==> r[k] == m[k])
    ensures r.Keys <= m.Keys + DiggKeys
  {
    var m1 := Put(m, "PREVIOUS", NumberOf(d.previous));
    var m2 := Put(m1, "NEXT", NumberOf(d.next));
    var m3 := Put(m2, "left_page_numbers", PagesOf(d.left));
    var m4 := Put(m3, "middle_page_numbers", PagesOf(d.middle));
    Put(m4, "right_page_numbers", PagesOf(d.right))
  }

  /** The dictionary after the style `s` has run on `m`. A style only adds its
      own keys: every other key keeps its presence and its value. */
  function Styled(m: map<string, Value>, s: Style, p: nat, n: int, f: nat): (r: map<string, Value>)
    ensures forall k :: k !in StyleKeys(s) ==> (k in r <==> k in m) && (k in m ==> r[k] == m[k])
    ensures r.Keys <= m.Keys + StyleKeys(s)
  {
    match s
    case Digg => WithDigg(m, DiggWindow(p, n, f))
    case Filmfeed => m["page_numbers" := PageNumbers(FilmfeedWindow(p, n, f))]
  }

  /** Every digg key holds what the digg view says, or keeps its earlier state when the view has nothing for it. */
  lemma WithDiggEntries(m: map<string, Value>, d: DiggView)
    ensures var r := WithDigg(m, d);
      (d.previous.Some? ==> "PREVIOUS" in r && r["PREVIOUS"] == Number(d.previous.value)) &&
      (d.previous.None? ==> ("PREVIOUS" in r <==> "PREVIOUS" in m) && ("PREVIOUS" in m ==> r["PREVIOUS"] == m["PREVIOUS"])) &&
      (d.next.Some? ==> "NEXT" in r && r["NEXT"] == Number(d.next.value)) &&
      (d.next.None? ==> ("NEXT" in r <==> "NEXT" in m) && ("NEXT" in m ==> r["NEXT"] == m["NEXT"])) &&
      (d.left.Some? ==> "left_page_numbers" in r && r["left_page_numbers"] == PageNumbers(d.left.value)) &&
      (d.left.None? ==> ("left_page_numbers" in r <==> "left_page_numbers" in m) &&
                        ("left_page_numbers" in m ==> r["left_page_numbers"] == m["left_page_numbers"])) &&
      (d.middle.Some? ==> "middle_page_numbers" in r && r["middle_page_numbers"] == PageNumbers(d.middle.value)) &&
      (d.middle.None? ==> ("middle_page_numbers" in r <==> "middle_page_numbers" in m) &&
                          ("middle_page_numbers" in m ==> r["middle_page_numbers"] == m["middle_page_numbers"])) &&
      (d.right.Some? ==> "right_page_numbers" in r && r["right_page_numbers"] == PageNumbers(d.right.value)) &&
      (d.right.None? ==> ("right_page_numbers" in r <==> "right_page_numbers" in m) &&
                         ("right_page_numbers" in m ==> r["right_page_numbers"] == m["right_page_numbers"]))
  {
  }

  /** Filmfeed never writes the previous/next markers: they are present after it only if they were before. */
  lemma FilmfeedLeavesMarkers(m: map<string, Value>, p: nat, n: int, f: nat)
    ensures var r := Styled(m, Filmfeed, p, n, f);
      ("PREVIOUS" in r <==> "PREVIOUS" in m) && ("NEXT" in r <==> "NEXT" in m) &&
      "page_numbers" in r && r["page_numbers"] == PageNumbers(FilmfeedWindow(p, n, f))
  {
  }

  /** The dictionary once decorate has replaced the object list by the current
      page's objects and added its own keys, in the source's order. */
  function Prepared(view: map<string, Value>, objectList: string, style: string, perPage: int,
                    page: int, pageObjects: Value): (m: map<string, Value>)
    ensures style in m && m[style] == Flag(true)
    ensures objectList != style ==> objectList in m && m[objectList] == pageObjects
    ensures "page_num" != objectList && "page_num" != style ==> "page_num" in m && m["page_num"] == Number(page)
    ensures "per_page" != objectList && "per_page" != style ==> "per_page" in m && m["per_page"] == Number(perPage)
    ensures forall k :: k in view && k != objectList && k != style && k != "page_num" && k != "per_page" ==>
              k in m && m[k] == view[k]
    ensures m.Keys == view.Keys - {objectList} + {"page_num", "per_page", objectList, style}
  {
    (view - {objectList})["page_num" := Number(page)]["per_page" := Number(perPage)][objectList := pageObjects][style := Flag(true)]
  }

  /** The outcome of decorate on the view's dictionary, the requested page and
      the page count Django's Paginator reports. It fails exactly on a missing
      object list, a page outside 1..pages, or an unknown style, in that order. */
  function Decorated(view: map<string, Value>, objectList: string, style: string, perPage: int, frameSize: nat,
                     page: int, pages: nat, pageObjects: Value): (r: Result<map<string, Value>, Error>)
    ensures r == Failure(MissingObjectList) <==> objectList !in view
    ensures r == Failure(PageNotFound) <==> objectList in view && !(1 <= page <= pages)
    ensures r == Failure(UnknownStyle) <==> objectList in view && 1 <= page <= pages && style != "digg" && style != "filmfeed"
    ensures r.Success? <==> objectList in view && 1 <= page <= pages && (style == "digg" || style == "filmfeed")
  {
    if objectList !in view then Failure(MissingObjectList)
    else if !(1 <= page <= pages) then Failure(PageNotFound)
    else
      var m := Prepared(view, objectList, style, perPage, page, pageObjects);
      match StyleNamed(style)
      case None => Failure(UnknownStyle)
      case Some(s) => Success(Styled(m, s, pages, page, frameSize))
  }

  /** On success, the keys decorate set survive the style (page_num, per_page, the
      object list, the style flag), unless a style writes a key of the same name;
      and every other entry of the view passes through untouched. */
  lemma DecoratedKeys(view: map<string, Value>, objectList: string, style: string, perPage: int, frameSize: nat,
                      page: int, pages: nat, pageObjects: Value)
    requires Decorated(view, objectList, style, perPage, frameSize, page, pages, pageObjects).Success?
    ensures var out := Decorated(view, objectList, style, perPage, frameSize, page, pages, pageObjects).value;
      var own := StyleKeys(StyleNamed(style).value);
      style in out && out[style] == Flag(true) &&
      "page_num" in out && (objectList != "page_num" ==> out["page_num"] == Number(page)) &&
      "per_page" in out && (objectList != "per_page" ==> out["per_page"] == Number(perPage)) &&
      (objectList != style && objectList !in own ==> out[objectList] == pageObjects) &&
      (forall k :: k in view && k !in own && k != objectList && k != style && k != "page_num" && k != "per_page" ==>
         k in out && out[k] == view[k])
  {
  }

  class NinjaPaginator {
    const objectList: string
    const style: string
    const perPage: int
    const frameSize: nat

    /** The dictionary being decorated, the current page and the page count. */
    var output: map<string, Value>
    var pageNum: int
    var pages: nat

    /** The decorator's parameters, with the source's defaults; the remaining fields are set by Decorate. */
    constructor (objectList: string := DefaultObjectList, style: string := DefaultStyle,
                 perPage: int := DefaultPerPage, frameSize: nat := DefaultFrameSize)
      ensures this.objectList == objectList && this.style == style
      ensures this.perPage == perPage && this.frameSize == frameSize
      ensures output == map[] && pageNum == 0 && pages == 0
    {
      this.objectList := objectList;
      this.style := style;
      this.perPage := perPage;
      this.frameSize := frameSize;
      output := map[];
      pageNum := 0;
      pages := 0;
    }

    /** Writes the previous/next markers and the digg clusters into the output. */
    method DiggStyle() returns (r: map<string, Value>)
      modifies this`output
      ensures output == WithDigg(old(output), DiggWindow(pages, pageNum, frameSize))
      ensures r == output
    {
      if pageNum > 1 {
        output := output["PREVIOUS" := Number(pageNum - 1)];
      }
      if pageNum < pages {
        output := output["NEXT" := Number(pageNum + 1)];
      }
      if pages > frameSize && pages <= frameSize + 2 {
        output := output["left_page_numbers" := PageNumbers(Range(1, pages + 1))];
      } else if pages < frameSize {
        output := output["left_page_numbers" := PageNumbers(Range(1, pages + 1))];
      } else if pages > frameSize && pageNum < frameSize - 1 {
        output := output["left_page_numbers" := PageNumbers(Range(1, frameSize + 1))];
        output := output["right_page_numbers" := PageNumbers(Range(pages - 1, pages + 1))];
      } else if pages > frameSize && pageNum > frameSize - 2 && pages - frameSize / 2 <= pageNum + 1 {
        output := output["left_page_numbers" := PageNumbers(Range(1, 3))];
        output := output["middle_page_numbers" := PageNumbers(Range(pages - frameSize + 1, pages + 1))];
      } else if pages > frameSize && pageNum > frameSize - 2 {
        output := output["left_page_numbers" := PageNumbers(Range(1, 3))];
        output := output["middle_page_numbers" := PageNumbers(Range(pageNum - frameSize / 2 + 1, pageNum + frameSize / 2))];
        output := output["right_page_numbers" := PageNumbers(Range(pages - 1, pages + 1))];
      }
      r := output;
    }

    /** Writes the filmfeed sliding window into the output. */
    method FilmfeedStyle() returns (r: map<string, Value>)
      modifies this`output
      ensures output == old(output)["page_numbers" := PageNumbers(FilmfeedWindow(pages, pageNum, frameSize))]
      ensures r == output
    {
      if pages < frameSize {
        output := output["page_numbers" := PageNumbers(Range(1, pages + 1))];
      } else if pageNum < frameSize / 2 + 1 {
        output := output["page_numbers" := PageNumbers(Range(1, frameSize + 1))];
      } else if pageNum >= frameSize / 2 + 1 && pages - frameSize / 2 <= pageNum {
        output := output["page_numbers" := PageNumbers(Range(pages - frameSize + 1, pages + 1))];
      } else if pageNum >= frameSize / 2 + 1 {
        var start := pageNum - frameSize / 2;
        var end := pageNum + frameSize / 2;
        output := output["page_numbers" := PageNumbers(Range(start, end + 1))];
      }
      r := output;
    }

    /** Decorates the view's dictionary `view`, for the requested `page`, given the
        page count and the current page's objects that Django's Paginator computes. */
    method Decorate(view: map<string, Value>, page: int, numPages: nat, pageObjects: Value)
      returns (r: Result<map<string, Value>, Error>)
      modifies this
      ensures r == Decorated(view, objectList, style, perPage, frameSize, page, numPages, pageObjects)
      ensures objectList !in view ==>
                output == view && pageNum == old(pageNum) && pages == old(pages)
      ensures objectList in view && !(1 <= page <= numPages) ==>
                output == view - {objectList} && pageNum == page && pages == old(pages)
      ensures objectList in view && 1 <= page <= numPages ==>
                pageNum == page && pages == numPages &&
                var m := Prepared(view, objectList, style, perPage, page, pageObjects);
                if StyleNamed(style).Some? then r == Success(output) && output == Styled(m, StyleNamed(style).value, numPages, page, frameSize)
                else output == m
    {
      output := view;
      if objectList !in output {
        return Failure(MissingObjectList);
      }
      output := output - {objectList};
      pageNum := page;
      if !(1 <= pageNum <= numPages) {
        return Failure(PageNotFound);
      }
      output := output["page_num" := Number(pageNum)];
      output := output["per_page" := Number(perPage)];
      pages := numPages;
      output := output[objectList := pageObjects];
      output := output[style := Flag(true)];
      var runStyle := StyleNamed(style);
      if runStyle == Some(Digg) {
        var out := DiggStyle();
        r := Success(out);
      } else if runStyle == Some(Filmfeed) {
        var out := FilmfeedStyle();
        r := Success(out);
      } else {
        r := Failure(UnknownStyle);
      }
    }
  }
}
