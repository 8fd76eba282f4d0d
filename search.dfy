/**
 * Searching the recruiting site for positions (modules/candidate.py): the
 * search URL built from the filters, the page URLs derived from it, the page
 * loop of a search, the 50-card cap of one result page, and the heuristics
 * that turn one result card into a candidate record.
 *
 * The browser is a parameter: `fetch` says what navigating to a URL yields
 * (the result cards found there, or a navigation failure), and each card
 * carries what the page offers for it.
 */
module Search {
  import opened Common

  /** The default search endpoint (config.py). */
  const SearchBaseUrl := "https://www.zhaopin.com/sou"
  /** Region code for a nationwide search, also used for unknown cities. */
  const NationwideCode := "489"
  /** The source parameter every search URL carries. */
  const SourceParam := "srccode=401801"
  /** At most this many cards of a result page are examined. */
  const MaxCardsPerPage: nat := 50
  const UnknownPosition := "未知职位"
  const UnknownCompany := "未知公司"
  const UnknownPublishTime := "未知时间"

  /** The city table, entry by entry, in the order written. */
  const LocationCodes: seq<(string, string)> := [
    ("北京", "530"),
    ("上海", "538"),
    ("广州", "763"),
    ("深圳", "765"),
    ("杭州", "653"),
    ("南京", "635"),
    ("武汉", "736"),
    ("成都", "801"),
    ("西安", "854"),
    ("重庆", "551"),
    ("天津", "531"),
    ("苏州", "636"),
    ("郑州", "719"),
    ("长沙", "749"),
    ("东莞", "780"),
    ("青岛", "702"),
    ("沈阳", "565"),
    ("宁波", "681"),
    ("昆明", "831")
  ]

  /** The three keyword codes; each is shared by a group of keywords. */
  const JavaCode := "01500O80EO062NO0AF8G"
  const PythonCode := "01500O80EO062"
  const FrontEndCode := "01500O80EO062NO0AF8"

  /** The keyword table, entry by entry, in the order written. */
  const KeywordCodes: seq<(string, string)> := [
    ("Java开发", JavaCode),
    ("java开发", JavaCode),
    ("Java", JavaCode),
    ("java", JavaCode),
    ("Java开发工程师", JavaCode),
    ("java开发工程师", JavaCode),
    ("Python开发", PythonCode),
    ("python开发", PythonCode),
    ("Python", PythonCode),
    ("python", PythonCode),
    ("Python开发工程师", PythonCode),
    ("python开发工程师", PythonCode),
    ("前端开发", FrontEndCode),
    ("前端", FrontEndCode),
    ("前端工程师", FrontEndCode),
    ("JavaScript", FrontEndCode),
    ("Vue", FrontEndCode),
    ("React", FrontEndCode),
    ("后端开发", JavaCode),
    ("后端", JavaCode),
    ("后端工程师", JavaCode),
    ("全栈开发", PythonCode),
    ("全栈", PythonCode),
    ("软件开发", PythonCode),
    ("软件工程师", PythonCode),
    ("PHP开发", FrontEndCode),
    ("PHP", FrontEndCode),
    ("C++", FrontEndCode),
    ("C#", FrontEndCode),
    (".NET", FrontEndCode),
    ("Go开发", PythonCode),
    ("Go", PythonCode),
    ("Node.js", FrontEndCode),
    ("数据库", FrontEndCode),
    ("MySQL", FrontEndCode),
    ("Redis", FrontEndCode),
    ("运维", FrontEndCode),
    ("DevOps", FrontEndCode),
    ("测试", FrontEndCode),
    ("测试工程师", FrontEndCode),
    ("产品经理", FrontEndCode),
    ("UI设计", FrontEndCode),
    ("UE设计", FrontEndCode)
  ]

  // ---------------------------------------------------------------------------
  // urllib.parse.quote with its defaults: UTF-8, and '/' kept as it is

  type Byte = x: int | 0 <= x < 256

  /** The UTF-8 encoding of one character. */
  function Utf8Char(c: char): (r: seq<Byte>)
    ensures 1 <= |r| <= 4
    ensures |r| == 1 <==> c as int < 0x80
    ensures |r| == 1 ==> r[0] == c as int
    ensures |r| > 1 ==> forall i :: 0 <= i < |r| ==> r[i] >= 0x80
  {
    var n := c as int;
    if n < 0x80 then [n]
    else if n < 0x800 then [0xC0 + n / 64, 0x80 + n % 64]
    else if n < 0x10000 then [0xE0 + n / 4096, 0x80 + (n / 64) % 64, 0x80 + n % 64]
    else [0xF0 + n / 0x40000, 0x80 + (n / 4096) % 64, 0x80 + (n / 64) % 64, 0x80 + n % 64]
  }

  function Utf8(s: string): seq<Byte>
  {
    if s == [] then [] else Utf8Char(s[0]) + Utf8(s[1..])
  }

  /** Letters, digits and `_.-~`: the bytes `quote` never escapes. */
  predicate IsUnreservedChar(c: char)
  {
    ('A' <= c <= 'Z') || ('a' <= c <= 'z') || ('0' <= c <= '9') || c == '_' || c == '.' || c == '-' || c == '~'
  }

  /** The bytes `quote` keeps: the unreserved ones and the default safe '/'. */
  predicate IsQuoteSafe(b: Byte)
  {
    IsUnreservedChar(b as char) || b == '/' as int
  }

  /** The characters a quoted text can contain. */
  predicate IsUrlChar(c: char)
  {
    IsUnreservedChar(c) || c == '/' || c == '%'
  }

  predicate IsHexDigit(c: char)
  {
    ('0' <= c <= '9') || ('A' <= c <= 'F') || ('a' <= c <= 'f')
  }

  /** Upper-case hexadecimal digit, as `quote` writes it. */
  function HexDigit(d: nat): (c: char)
    requires d < 16
    ensures IsHexDigit(c) && IsUnreservedChar(c)
  {
    if d < 10 then ('0' as int + d) as char else ('A' as int + d - 10) as char
  }

  function HexValue(c: char): (v: nat)
    requires IsHexDigit(c)
    ensures v < 16
  {
    if '0' <= c <= '9' then c as int - '0' as int
    else if 'A' <= c <= 'F' then c as int - 'A' as int + 10
    else c as int - 'a' as int + 10
  }

  function QuoteByte(b: Byte): (r: string)
    ensures 1 <= |r| <= 3
  {
    if IsQuoteSafe(b) then [b as char] else ['%', HexDigit(b / 16), HexDigit(b % 16)]
  }

  function QuoteBytes(bs: seq<Byte>): (r: string)
    ensures forall i :: 0 <= i < |r| ==> IsUrlChar(r[i])
  {
    if bs == [] then "" else QuoteByte(bs[0]) + QuoteBytes(bs[1..])
  }

  /** `urllib.parse.quote(s)`: only URL characters come out, so never '?', '&' or '#'. */
  function Quote(s: string): (r: string)
    ensures forall i :: 0 <= i < |r| ==> IsUrlChar(r[i])
    ensures '?' !in r && '&' !in r && '#' !in r
  {
    QuoteBytes(Utf8(s))
  }

  /**
   * Percent-decoding to bytes: "%XY" with two hexadecimal digits is the byte
   * XY, any other character stands for its own code.
   */
  function PercentDecode(t: string): seq<int>
  {
    if t == [] then []
    else if |t| >= 3 && t[0] == '%' && IsHexDigit(t[1]) && IsHexDigit(t[2]) then
      [HexValue(t[1]) * 16 + HexValue(t[2])] + PercentDecode(t[3..])
    else [t[0] as int] + PercentDecode(t[1..])
  }

  lemma HexDigitValue(d: nat)
    requires d < 16
    ensures HexValue(HexDigit(d)) == d
  {
  }

  /** Percent-decoding undoes the byte escaping: nothing is lost. */
  lemma {:induction false} DecodeQuoteBytes(bs: seq<Byte>)
    ensures PercentDecode(QuoteBytes(bs)) == bs
  {
    if bs != [] {
      var b := bs[0];
      var t := QuoteBytes(bs);
      DecodeQuoteBytes(bs[1..]);
      assert t == QuoteByte(b) + QuoteBytes(bs[1..]);
      if IsQuoteSafe(b) {
        assert t[0] == b as char && t[1..] == QuoteBytes(bs[1..]);
      } else {
        HexDigitValue(b / 16);
        HexDigitValue(b % 16);
        assert t[3..] == QuoteBytes(bs[1..]);
      }
    }
  }

  /** Decoding a quoted keyword gives back its UTF-8 bytes. */
  lemma QuoteRoundTrip(s: string)
    ensures PercentDecode(Quote(s)) == Utf8(s)
  {
    DecodeQuoteBytes(Utf8(s));
  }

  /** A keyword made of unreserved characters and '/' is left as it is. */
  lemma {:induction false} QuoteKeepsPlainText(s: string)
    requires forall i :: 0 <= i < |s| ==> IsUnreservedChar(s[i]) || s[i] == '/'
    ensures Quote(s) == s
  {
    if s != [] {
      QuoteKeepsPlainText(s[1..]);
      assert Utf8(s) == [s[0] as int] + Utf8(s[1..]);
      assert QuoteBytes(Utf8(s)) == QuoteByte(s[0] as int) + QuoteBytes(Utf8(s[1..]));
      assert s == [s[0]] + s[1..];
    }
  }

  // ---------------------------------------------------------------------------
  // The search URL

  /**
   * `table.get(key)` for a table given by its entries, searched from entry
   * `i` on; the keys of each table are distinct, so the first match is the
   * only one.
   */
  function Lookup(table: seq<(string, string)>, key: string, i: nat): (r: Option<string>)
    ensures r.Some? ==> exists j :: i <= j < |table| && table[j] == (key, r.value)
    ensures r.None? ==> forall j :: i <= j < |table| ==> table[j].0 != key
    decreases |table| - i
  {
    if i >= |table| then None
    else if table[i].0 == key then Some(table[i].1)
    else Lookup(table, key, i + 1)
  }

  /** The first entry whose key matches is the one `Lookup` finds. */
  lemma {:induction false} LookupFindsFirst(table: seq<(string, string)>, key: string, i: nat, k: nat)
    requires i <= k < |table| && table[k].0 == key
    requires forall j :: i <= j < k ==> table[j].0 != key
    ensures Lookup(table, key, i) == Some(table[k].1)
    decreases k - i
  {
    if i < k {
      LookupFindsFirst(table, key, i + 1, k);
    }
  }

  /** The region segment: the city's code, or the nationwide code for a city not in the table. */
  function LocationCode(location: string): string
  {
    OrElse(Lookup(LocationCodes, location, 0), NationwideCode)
  }

  /** The keyword segment: the site's code for a known keyword, else the quoted keyword. */
  function KeywordCode(keyword: string): string
  {
    var code := Lookup(KeywordCodes, keyword, 0);
    if code.Some? then code.value else Quote(keyword)
  }

  function PathSegments(keyword: string, location: string): (segs: seq<string>)
    ensures |segs| == (if location != "" then 1 else 0) + (if keyword != "" then 1 else 0)
  {
    (if location != "" then ["jl" + LocationCode(location)] else [])
    + (if keyword != "" then ["kw" + KeywordCode(keyword)] else [])
  }

  /** The path part of a search URL; with neither a location nor a keyword it is the nationwide search. */
  function SearchPath(base: string, keyword: string, location: string): string
  {
    var segs := PathSegments(keyword, location);
    base + "/" + (if segs == [] then "jl" + NationwideCode else Join(segs, "/"))
  }

  /** The query parameters, in the order the filters are checked; the source parameter always comes last. */
  function QueryParams(experience: string, education: string, salaryRange: string, companyType: string): (ps: seq<string>)
    ensures |ps| >= 1 && ps[|ps| - 1] == SourceParam
  {
    (if experience != "" then ["gx=" + experience] else [])
    + (if education != "" then ["xl=" + education] else [])
    + (if salaryRange != "" then ["yx=" + salaryRange] else [])
    + (if companyType != "" then ["gm=" + companyType] else [])
    + [SourceParam]
  }

  /** `_build_search_url`. */
  function BuildSearchUrl(base: string, keyword: string, location: string, experience: string,
                          education: string, salaryRange: string, companyType: string): string
  {
    SearchPath(base, keyword, location) + "?" + Join(QueryParams(experience, education, salaryRange, companyType), "&")
  }

  /** The URL of result page `page`: page 1 is the search URL, later pages insert "/p<page>" before the query. */
  function PageUrl(url: string, page: nat): string
  {
    if page <= 1 then url
    else
      var k := IndexOf(url, '?');
      if k < |url| then url[..k] + "/p" + NatToString(page) + "?" + url[k + 1..]
      else url + "/p" + NatToString(page)
  }

  /** The URL of every result page of the search at `url`. */
  function PageUrlsOf(url: string): nat -> string
  {
    (page: nat) => PageUrl(url, page)
  }

  predicate NoQuestionMark(s: string) { '?' !in s }

  /** No region code contains '?'. */
  lemma LocationCodesArePlain()
    ensures forall i :: 0 <= i < |LocationCodes| ==> NoQuestionMark(LocationCodes[i].1)
  {
  }

  /** No keyword code contains '?': each is one of the three codes, none of which does. */
  lemma KeywordCodesArePlain()
    ensures forall i :: 0 <= i < |KeywordCodes| ==> NoQuestionMark(KeywordCodes[i].1)
  {
    assert NoQuestionMark(JavaCode) && NoQuestionMark(PythonCode) && NoQuestionMark(FrontEndCode);
    forall i | 0 <= i < |KeywordCodes|
      ensures KeywordCodes[i].1 == JavaCode || KeywordCodes[i].1 == PythonCode || KeywordCodes[i].1 == FrontEndCode
    {
    }
  }

  /** Hence neither path segment code contains '?'. */
  lemma CodesArePlain(keyword: string, location: string)
    ensures '?' !in LocationCode(location) && '?' !in KeywordCode(keyword)
  {
    LocationCodesArePlain();
    KeywordCodesArePlain();
    LookupIsPlain(LocationCodes, location, 0);
    LookupIsPlain(KeywordCodes, keyword, 0);
  }

  /** A code found in a table whose codes avoid '?' avoids it too. */
  lemma {:induction false} LookupIsPlain(table: seq<(string, string)>, key: string, i: nat)
    requires forall j :: 0 <= j < |table| ==> NoQuestionMark(table[j].1)
    ensures Lookup(table, key, i).Some? ==> NoQuestionMark(Lookup(table, key, i).value)
    decreases |table| - i
  {
    if i < |table| && table[i].0 != key {
      LookupIsPlain(table, key, i + 1);
    }
  }

  lemma {:induction false} JoinAvoids(parts: seq<string>, sep: string, c: char)
    requires c !in sep
    requires forall i :: 0 <= i < |parts| ==> c !in parts[i]
    ensures c !in Join(parts, sep)
  {
    if |parts| > 1 {
      JoinAvoids(parts[1..], sep, c);
      assert Join(parts, sep) == parts[0] + sep + Join(parts[1..], sep);
    }
  }

  lemma {:induction false} IndexOfAfter(a: string, b: string, c: char)
    requires c !in a
    ensures IndexOf(a + b, c) == |a| + IndexOf(b, c)
  {
    if a != [] {
      assert (a + b)[1..] == a[1..] + b;
      IndexOfAfter(a[1..], b, c);
    } else {
      assert a + b == b;
    }
  }

  lemma SearchPathHasNoQuery(base: string, keyword: string, location: string)
    requires '?' !in base
    ensures '?' !in SearchPath(base, keyword, location)
  {
    CodesArePlain(keyword, location);
    var segs := PathSegments(keyword, location);
    forall i | 0 <= i < |segs|
      ensures '?' !in segs[i]
    {
    }
    JoinAvoids(segs, "/", '?');
  }

  /**
   * When the base has no '?', the first '?' of a search URL is the one that
   * opens its query: what precedes it is the region/keyword path, what follows
   * it the parameters joined by '&'.
   */
  lemma SearchUrlSplitsAtQuery(base: string, keyword: string, location: string, experience: string,
                               education: string, salaryRange: string, companyType: string)
    requires '?' !in base
    ensures var u := BuildSearchUrl(base, keyword, location, experience, education, salaryRange, companyType);
            var k := IndexOf(u, '?');
            k < |u| && u[..k] == SearchPath(base, keyword, location)
            && u[k + 1..] == Join(QueryParams(experience, education, salaryRange, companyType), "&")
  {
    var p := SearchPath(base, keyword, location);
    var q := Join(QueryParams(experience, education, salaryRange, companyType), "&");
    SearchPathHasNoQuery(base, keyword, location);
    IndexOfAfter(p, "?" + q, '?');
    assert p + "?" + q == p + ("?" + q);
  }

  /** A later page inserts "/p<page>" right before the first '?' and changes nothing else. */
  lemma PageUrlInsertsMarker(url: string, page: nat)
    requires page >= 2
    ensures var k := IndexOf(url, '?');
            PageUrl(url, page) == url[..k] + "/p" + NatToString(page) + url[k..]
  {
    var k := IndexOf(url, '?');
    var n := NatToString(page);
    if k < |url| {
      assert url[k..] == "?" + url[k + 1..];
      assert PageUrl(url, page) == url[..k] + "/p" + n + "?" + url[k + 1..];
      assert url[..k] + "/p" + n + "?" + url[k + 1..] == url[..k] + "/p" + n + ("?" + url[k + 1..]);
    } else {
      assert url[..k] == url && url[k..] == [];
      assert PageUrl(url, page) == url + "/p" + n;
    }
  }

  /** Page `page` of a search keeps the path, appends the page marker to it, then the same query. */
  lemma SearchPageUrl(base: string, keyword: string, location: string, experience: string,
                      education: string, salaryRange: string, companyType: string, page: nat)
    requires '?' !in base && page >= 2
    ensures PageUrl(BuildSearchUrl(base, keyword, location, experience, education, salaryRange, companyType), page)
            == SearchPath(base, keyword, location) + "/p" + NatToString(page) + "?"
               + Join(QueryParams(experience, education, salaryRange, companyType), "&")
  {
    SearchUrlSplitsAtQuery(base, keyword, location, experience, education, salaryRange, companyType);
  }

  /** With both a location and a keyword, the path is the region segment followed by the keyword segment. */
  lemma SearchPathWithBoth(base: string, keyword: string, location: string)
    requires keyword != "" && location != ""
    ensures SearchPath(base, keyword, location) == base + "/jl" + LocationCode(location) + "/kw" + KeywordCode(keyword)
  {
    var a, b := LocationCode(location), KeywordCode(keyword);
    assert PathSegments(keyword, location) == ["jl" + a, "kw" + b];
    PathOfBoth(base, a, b);
  }

  /** The path joined from a region segment and a keyword segment. */
  lemma PathOfBoth(base: string, a: string, b: string)
    ensures base + "/" + Join(["jl" + a, "kw" + b], "/") == base + "/jl" + a + "/kw" + b
  {
    assert ["jl" + a, "kw" + b][1..] == ["kw" + b];
    assert Join(["jl" + a, "kw" + b], "/") == "jl" + a + "/" + ("kw" + b);
  }

  lemma {:induction false} ExampleUrl(keyword: string, location: string, a: string, b: string)
    requires keyword != "" && location != "" && LocationCode(location) == a && KeywordCode(keyword) == b
    ensures BuildSearchUrl(SearchBaseUrl, keyword, location, "", "", "", "")
            == SearchBaseUrl + "/jl" + a + "/kw" + b + "?" + SourceParam
  {
    SearchPathWithBoth(SearchBaseUrl, keyword, location);
    assert QueryParams("", "", "", "") == [SourceParam];
  }

  lemma {:induction false} ExamplePageUrl(base: string, keyword: string, location: string, a: string, b: string, page: nat)
    requires '?' !in base && keyword != "" && location != "" && LocationCode(location) == a && KeywordCode(keyword) == b
    requires page >= 2
    ensures PageUrl(BuildSearchUrl(base, keyword, location, "", "", "", ""), page)
            == base + "/jl" + a + "/kw" + b + "/p" + NatToString(page) + "?" + SourceParam
  {
    var params := QueryParams("", "", "", "");
    assert params == [SourceParam];
    assert Join(params, "&") == SourceParam;
    SearchPageUrl(base, keyword, location, "", "", "", "", page);
    SearchPathWithBoth(base, keyword, location);
  }

  lemma JavaInBeijingCodes()
    ensures LocationCode("北京") == "530" && KeywordCode("Java开发") == "01500O80EO062NO0AF8G"
  {
    assert LocationCodes[0] == ("北京", "530");
    assert KeywordCodes[0] == ("Java开发", "01500O80EO062NO0AF8G");
  }

  lemma PythonInShanghaiCodes()
    ensures LocationCode("上海") == "538" && KeywordCode("Python开发") == "01500O80EO062"
  {
    assert LocationCodes[0].0 != "上海" && LocationCodes[1] == ("上海", "538");
    assert Lookup(LocationCodes, "上海", 0) == Lookup(LocationCodes, "上海", 1);
    LookupFindsFirst(KeywordCodes, "Python开发", 0, 6);
  }

  lemma FrontEndInShenzhenCodes()
    ensures LocationCode("深圳") == "765" && KeywordCode("前端开发") == "01500O80EO062NO0AF8"
  {
    ShenzhenLocationCode();
    FrontEndKeywordCode();
  }

  lemma ShenzhenLocationCode()
    ensures LocationCode("深圳") == "765"
  {
    LookupFindsFirst(LocationCodes, "深圳", 0, 3);
  }

  lemma FrontEndKeywordCode()
    ensures KeywordCode("前端开发") == "01500O80EO062NO0AF8"
  {
    LookupFindsFirst(KeywordCodes, "前端开发", 0, 12);
  }

  /** The URLs of the repository's URL-building examples. */
  lemma JavaInBeijingUrl()
    ensures BuildSearchUrl(SearchBaseUrl, "Java开发", "北京", "", "", "", "")
            == SearchBaseUrl + "/jl" + "530" + "/kw" + "01500O80EO062NO0AF8G" + "?" + SourceParam
  {
    JavaInBeijingCodes();
    ExampleUrl("Java开发", "北京", "530", "01500O80EO062NO0AF8G");
  }

  lemma PythonInShanghaiUrl()
    ensures BuildSearchUrl(SearchBaseUrl, "Python开发", "上海", "", "", "", "")
            == SearchBaseUrl + "/jl" + "538" + "/kw" + "01500O80EO062" + "?" + SourceParam
  {
    PythonInShanghaiCodes();
    ExampleUrl("Python开发", "上海", "538", "01500O80EO062");
  }

  lemma FrontEndInShenzhenUrl()
    ensures BuildSearchUrl(SearchBaseUrl, "前端开发", "深圳", "", "", "", "")
            == SearchBaseUrl + "/jl" + "765" + "/kw" + "01500O80EO062NO0AF8" + "?" + SourceParam
  {
    FrontEndInShenzhenCodes();
    ExampleUrl("前端开发", "深圳", "765", "01500O80EO062NO0AF8");
  }

  /** Without location and keyword the search is nationwide. */
  lemma UnfilteredUrl(base: string)
    ensures BuildSearchUrl(base, "", "", "", "", "", "") == base + "/jl489?" + SourceParam
  {
    assert QueryParams("", "", "", "") == [SourceParam];
    assert PathSegments("", "") == [];
  }

  // ---------------------------------------------------------------------------
  // One result card

  /** The first link of a card: its text and its href ("" when the link has none). */
  datatype Link = Link(text: string, href: string)

  /**
   * What the page offers for one result card. `text` is None when reading the
   * card's text raises. The four regular-expression searches over the card text
   * (salary, place, experience, education) are given as their first match, if
   * any. `finishesInTime` is false when extracting the card does not complete
   * within three seconds or raises.
   */
  datatype Card = Card(text: Option<string>, link: Option<Link>,
                       salaryMatch: Option<string>, placeMatch: Option<string>,
                       experienceMatch: Option<string>, educationMatch: Option<string>,
                       finishesInTime: bool)

  datatype Candidate = Candidate(name: string, profileUrl: string, salary: string, location: string,
                                 experience: string, education: string, company: string, publishTime: string)

  /** Python's `w in text` for strings. */
  predicate Contains(text: string, w: string)
    decreases |text|
  {
    |w| <= |text| && (text[..|w|] == w || (text != [] && Contains(text[1..], w)))
  }

  /**
   * The line mentions 万, 千, 元, 年, 月, 日, 小时 or 分钟: a salary, a date or a
   * duration rather than a company name. A one-character marker occurs in the
   * line exactly when its character does.
   */
  predicate MentionsPayOrTime(line: string)
  {
    '万' in line || '千' in line || '元' in line || '年' in line || '月' in line || '日' in line
    || Contains(line, "小时") || Contains(line, "分钟")
  }

  /** A stripped line taken as the company name: non-empty, no marker, 3 to 49 characters. */
  predicate IsCompanyLine(line: string)
  {
    line != "" && !MentionsPayOrTime(line) && 2 < |line| < 50
  }

  /** A raw line of card text that, stripped, is taken as the company name. */
  predicate NamesCompany(line: string)
  {
    IsCompanyLine(Strip(line))
  }

  /** The index of the first line from `i` on that strips to a company name, or |lines|. */
  function FirstCompanyIndex(lines: seq<string>, i: nat): (k: nat)
    requires i <= |lines|
    ensures i <= k <= |lines|
    ensures k < |lines| ==> NamesCompany(lines[k])
    ensures forall j :: i <= j < k ==> !NamesCompany(lines[j])
    decreases |lines| - i
  {
    if i == |lines| then i
    else if NamesCompany(lines[i]) then i
    else FirstCompanyIndex(lines, i + 1)
  }

  /** The company of a card: its first plausible line, stripped, else "未知公司". */
  function CompanyOf(lines: seq<string>): (c: string)
    ensures (forall j :: 0 <= j < |lines| ==> !NamesCompany(lines[j])) ==> c == UnknownCompany
    ensures forall k :: (0 <= k < |lines| && NamesCompany(lines[k])
                        && (forall j :: 0 <= j < k ==> !NamesCompany(lines[j]))) ==> c == Strip(lines[k])
  {
    var k := FirstCompanyIndex(lines, 0);
    if k < |lines| then Strip(lines[k]) else UnknownCompany
  }

  /** The line scan of `_extract_candidate_basic_info` that picks the company. */
  method FindCompany(lines: seq<string>) returns (company: string)
    ensures company == CompanyOf(lines)
  {
    company := UnknownCompany;
    var i := 0;
    while i < |lines|
      invariant 0 <= i <= |lines|
      invariant forall j :: 0 <= j < i ==> !NamesCompany(lines[j])
    {
      var line := Strip(lines[i]);
      if line != "" && !MentionsPayOrTime(line) {
        if 2 < |line| < 50 {
          company := line;
          assert NamesCompany(lines[i]);
          return;
        }
      }
      assert !NamesCompany(lines[i]);
      i := i + 1;
    }
  }

  /** The position title of a card: the link text, else the first line of the card text. */
  function NameOf(link: Option<Link>, text: string): string
  {
    match link
    case Some(l) => Strip(l.text)
    case None => Strip(Split(text, '\n')[0])
  }

  function OrElse(m: Option<string>, default: string): string
  {
    if m.Some? then m.value else default
  }

  /** The record `_extract_candidate_basic_info` returns for a card, or None. */
  function BasicInfo(card: Card): (r: Option<Candidate>)
    ensures card.text.None? ==> r.None?
    ensures card.text.Some? && Strip(card.text.value) == "" ==> r.None?
    ensures r.Some? ==> r.value.name != "" && r.value.name != UnknownPosition
    ensures r.Some? ==> r.value.company == CompanyOf(Split(Strip(card.text.value), '\n'))
    ensures r.Some? ==> r.value.profileUrl == (if card.link.Some? then card.link.value.href else "")
  {
    if card.text.None? then None
    else
      var text := Strip(card.text.value);
      if text == "" then None
      else
        var name := NameOf(card.link, text);
        if name == "" || name == UnknownPosition then None
        else
          Some(Candidate(
            name := name,
            profileUrl := if card.link.Some? then card.link.value.href else "",
            salary := OrElse(card.salaryMatch, "面议"),
            location := OrElse(card.placeMatch, "未知地点"),
            experience := OrElse(card.experienceMatch, "经验不限"),
            education := OrElse(card.educationMatch, "学历不限"),
            company := CompanyOf(Split(text, '\n')),
            publishTime := UnknownPublishTime))
  }

  /** A card is kept exactly when its text is readable and non-blank and its title is neither blank nor "未知职位". */
  lemma BasicInfoAcceptsExactly(card: Card)
    ensures BasicInfo(card).Some? <==>
            card.text.Some? && Strip(card.text.value) != ""
            && NameOf(card.link, Strip(card.text.value)) != ""
            && NameOf(card.link, Strip(card.text.value)) != UnknownPosition
  {
  }

  /**
   * Without a link the title is the first line of the stripped text, which
   * cannot be blank: such a card is dropped only when that line is "未知职位".
   */
  lemma {:induction false} TitleFromTextIsNeverBlank(text: string)
    requires text != "" && Strip(text) == text
    ensures NameOf(None, text) != ""
  {
    var k := IndexOf(text, '\n');
    assert !IsSpace(text[0]);
    assert k > 0;
    var first := Split(text, '\n')[0];
    assert first == text[..k];
    assert first[0] == text[0];
    StripBlank(first);
  }

  /** A card without a link and with readable, non-blank text is kept unless its first line reads "未知职位". */
  lemma LinklessCardKeptUnlessUnknown(card: Card)
    requires card.link.None? && card.text.Some? && Strip(card.text.value) != ""
    ensures BasicInfo(card).Some? <==> NameOf(None, Strip(card.text.value)) != UnknownPosition
  {
    StripIdempotent(card.text.value);
    TitleFromTextIsNeverBlank(Strip(card.text.value));
  }

  /** `_extract_candidate_basic_info` step by step, with its early returns. */
  method ExtractCandidateBasicInfo(card: Card) returns (r: Option<Candidate>)
    ensures r == BasicInfo(card)
  {
    if card.text.None? {
      return None;
    }
    var text := Strip(card.text.value);
    if text == "" {
      return None;
    }
    var name, url;
    if card.link.Some? {
      name, url := Strip(card.link.value.text), card.link.value.href;
    } else {
      var lines := Split(text, '\n');
      name, url := Strip(lines[0]), "";
    }
    assert name == NameOf(card.link, text);
    var company := FindCompany(Split(text, '\n'));
    if name == "" || name == UnknownPosition {
      return None;
    }
    r := Some(Candidate(name, url, OrElse(card.salaryMatch, "面议"), OrElse(card.placeMatch, "未知地点"),
                        OrElse(card.experienceMatch, "经验不限"), OrElse(card.educationMatch, "学历不限"),
                        company, UnknownPublishTime));
  }

  // ---------------------------------------------------------------------------
  // One result page

  /** What one card contributes: its record, when extraction finished in time and produced one. */
  function CardYield(card: Card): seq<Candidate>
  {
    if card.finishesInTime && BasicInfo(card).Some? then [BasicInfo(card).value] else []
  }

  function ParsedCards(cards: seq<Card>): (r: seq<Candidate>)
    ensures |r| <= |cards|
    ensures forall i :: 0 <= i < |r| ==> r[i].name != "" && r[i].name != UnknownPosition
  {
    if cards == [] then [] else ParsedCards(cards[..|cards| - 1]) + CardYield(cards[|cards| - 1])
  }

  /** The candidates a result page yields: those of its first 50 cards, in card order. */
  function PageCandidates(cards: seq<Card>): (r: seq<Candidate>)
    ensures |r| <= MaxCardsPerPage
  {
    ParsedCards(cards[..Min(|cards|, MaxCardsPerPage)])
  }

  /** `c` is the record of one of `cards`, extracted in time. */
  predicate ExtractedFrom(c: Candidate, cards: seq<Card>)
  {
    exists j :: 0 <= j < |cards| && cards[j].finishesInTime && BasicInfo(cards[j]) == Some(c)
  }

  /** Every parsed candidate is the record of one of the cards; nothing else is invented. */
  lemma {:induction false} ParsedCardsComeFromCards(cards: seq<Card>)
    ensures forall c :: c in ParsedCards(cards) ==> ExtractedFrom(c, cards)
  {
    if cards != [] {
      var init := cards[..|cards| - 1];
      var last := cards[|cards| - 1];
      ParsedCardsComeFromCards(init);
      assert ParsedCards(cards) == ParsedCards(init) + CardYield(last);
      forall c | c in ParsedCards(cards)
        ensures ExtractedFrom(c, cards)
      {
        if c in ParsedCards(init) {
          var j :| 0 <= j < |init| && init[j].finishesInTime && BasicInfo(init[j]) == Some(c);
          assert cards[j] == init[j];
        } else {
          assert c in CardYield(last);
          assert last == cards[|cards| - 1];
        }
      }
    }
  }

  /** Cards after the fiftieth never change what a page yields. */
  lemma CardsBeyondTheCapAreIgnored(cards: seq<Card>, more: seq<Card>)
    requires |cards| >= MaxCardsPerPage
    ensures PageCandidates(cards + more) == PageCandidates(cards)
  {
    assert (cards + more)[..MaxCardsPerPage] == cards[..MaxCardsPerPage];
  }

  /** Parsing one more card appends what that card yields. */
  lemma ParsedCardsExtend(cards: seq<Card>, i: nat)
    requires i < |cards|
    ensures ParsedCards(cards[..i + 1]) == ParsedCards(cards[..i]) + CardYield(cards[i])
  {
    assert cards[..i + 1][..i] == cards[..i];
  }

  /** `_parse_candidate_list`: each of the first 50 cards is extracted in turn; records are kept in card order. */
  method ParseCandidateList(cards: seq<Card>) returns (found: seq<Candidate>)
    ensures found == PageCandidates(cards)
    ensures |found| <= MaxCardsPerPage
  {
    var maxCards := Min(|cards|, MaxCardsPerPage);
    found := [];
    for i := 0 to maxCards
      invariant found == ParsedCards(cards[..i])
    {
      ParsedCardsExtend(cards, i);
      if cards[i].finishesInTime {
        var info := ExtractCandidateBasicInfo(cards[i]);
        if info.Some? {
          found := found + [info.value];
        }
      }
    }
    assert cards[..maxCards] == cards[..Min(|cards|, MaxCardsPerPage)];
  }

  // ---------------------------------------------------------------------------
  // The page loop of a search

  /** What navigating to a result page yields: its cards, or a navigation failure (an exception). */
  datatype PageLoad = Loaded(cards: seq<Card>) | NavigationFailed

  /** What a result page contributes to a search: its candidates, or None when navigating to it fails. */
  function PageOutcome(load: PageLoad): (r: Option<seq<Candidate>>)
    ensures r.Some? ==> |r.value| <= MaxCardsPerPage
  {
    match load
    case Loaded(cards) => Some(PageCandidates(cards))
    case NavigationFailed => None
  }

  /** The outcome of each page URL, for a browser whose navigation yields `fetch`. */
  function Outcomes(fetch: string -> PageLoad): string -> Option<seq<Candidate>>
  {
    u => PageOutcome(fetch(u))
  }

  /** The candidates returned, the page URLs visited in order, and whether an exception ended the search. */
  datatype SearchResult = SearchResult(candidates: seq<Candidate>, visited: seq<string>, failed: bool)

  /** The candidates of the given pages, page after page (a failed page contributes none). */
  function Harvest(pages: string -> Option<seq<Candidate>>, urls: seq<string>): seq<Candidate>
  {
    if urls == [] then []
    else (if pages(urls[0]).Some? then pages(urls[0]).value else []) + Harvest(pages, urls[1..])
  }

  /**
   * The search from page `page` on, page `p` being at `pageUrl(p)`, having collected `acc` from the pages
   * `seen`: pages up to `pageLimit` are visited in order; an empty page stops
   * the search with what was collected, a failed navigation stops it with [].
   */
  function ScanPages(pageUrl: nat -> string, page: nat, pageLimit: int, pages: string -> Option<seq<Candidate>>,
                     acc: seq<Candidate>, seen: seq<string>): SearchResult
    decreases pageLimit - page + 1
  {
    if page > pageLimit then SearchResult(acc, seen, false)
    else
      var u := pageUrl(page);
      match pages(u)
      case None => SearchResult([], seen + [u], true)
      case Some(found) =>
        if found == [] then SearchResult(acc, seen + [u], false)
        else ScanPages(pageUrl, page + 1, pageLimit, pages, acc + found, seen + [u])
  }

  /** A search only ever appends to the pages seen, at most one per page number up to `pageLimit`. */
  lemma {:induction false} ScanExtendsSeen(pageUrl: nat -> string, page: nat, pageLimit: int,
                                           pages: string -> Option<seq<Candidate>>,
                                           acc: seq<Candidate>, seen: seq<string>)
    ensures var r := ScanPages(pageUrl, page, pageLimit, pages, acc, seen);
            |seen| <= |r.visited| && r.visited[..|seen|] == seen
            && |r.visited| - |seen| <= (if pageLimit >= page then pageLimit - page + 1 else 0)
    decreases pageLimit - page + 1
  {
    if page <= pageLimit {
      var u := pageUrl(page);
      if pages(u).Some? && pages(u).value != [] {
        ScanExtendsSeen(pageUrl, page + 1, pageLimit, pages, acc + pages(u).value, seen + [u]);
      }
    }
  }

  /** The pages visited are pages page, page+1, ... in order. */
  lemma {:induction false} ScanVisitsPagesInOrder(pageUrl: nat -> string, page: nat, pageLimit: int,
                                                  pages: string -> Option<seq<Candidate>>,
                                                  acc: seq<Candidate>, seen: seq<string>)
    ensures var r := ScanPages(pageUrl, page, pageLimit, pages, acc, seen);
            forall i :: |seen| <= i < |r.visited| ==> r.visited[i] == pageUrl(page + i - |seen|)
    decreases pageLimit - page + 1
  {
    var r := ScanPages(pageUrl, page, pageLimit, pages, acc, seen);
    if page > pageLimit {
      assert r.visited == seen;
    } else {
      var u := pageUrl(page);
      var next := seen + [u];
      if pages(u).Some? && pages(u).value != [] {
        assert r == ScanPages(pageUrl, page + 1, pageLimit, pages, acc + pages(u).value, next);
        ScanVisitsPagesInOrder(pageUrl, page + 1, pageLimit, pages, acc + pages(u).value, next);
        ScanExtendsSeen(pageUrl, page + 1, pageLimit, pages, acc + pages(u).value, next);
        forall i | |seen| <= i < |r.visited|
          ensures r.visited[i] == pageUrl(page + i - |seen|)
        {
          if i == |seen| {
            assert r.visited[i] == next[|seen|];
          } else {
            assert page + i - |seen| == page + 1 + i - |next|;
          }
        }
      } else {
        assert r.visited == next;
      }
    }
  }

  /** Every visited page but the last yielded candidates. */
  lemma {:induction false} ScanPassesOnlyFullPages(pageUrl: nat -> string, page: nat, pageLimit: int,
                                                   pages: string -> Option<seq<Candidate>>,
                                                   acc: seq<Candidate>, seen: seq<string>)
    ensures var r := ScanPages(pageUrl, page, pageLimit, pages, acc, seen);
            forall i :: |seen| <= i < |r.visited| - 1 ==> pages(r.visited[i]).Some? && pages(r.visited[i]).value != []
    decreases pageLimit - page + 1
  {
    if page <= pageLimit {
      var u := pageUrl(page);
      if pages(u).Some? && pages(u).value != [] {
        var next := seen + [u];
        ScanPassesOnlyFullPages(pageUrl, page + 1, pageLimit, pages, acc + pages(u).value, next);
        ScanExtendsSeen(pageUrl, page + 1, pageLimit, pages, acc + pages(u).value, next);
        var r := ScanPages(pageUrl, page + 1, pageLimit, pages, acc + pages(u).value, next);
        assert ScanPages(pageUrl, page, pageLimit, pages, acc, seen) == r;
        assert r.visited[|seen|] == next[|seen|] == u;
      }
    }
  }

  /** A search that ends before `pageLimit` without failing ends on a page that yielded nothing. */
  lemma {:induction false} ScanEndsOnEmptyPage(pageUrl: nat -> string, page: nat, pageLimit: int,
                                               pages: string -> Option<seq<Candidate>>,
                                               acc: seq<Candidate>, seen: seq<string>)
    ensures var r := ScanPages(pageUrl, page, pageLimit, pages, acc, seen);
            !r.failed && |r.visited| - |seen| < pageLimit - page + 1 ==>
              |r.visited| > |seen| && pages(r.visited[|r.visited| - 1]) == Some([])
    decreases pageLimit - page + 1
  {
    if page <= pageLimit {
      var u := pageUrl(page);
      if pages(u).Some? && pages(u).value != [] {
        var next := seen + [u];
        ScanEndsOnEmptyPage(pageUrl, page + 1, pageLimit, pages, acc + pages(u).value, next);
        assert ScanPages(pageUrl, page, pageLimit, pages, acc, seen)
               == ScanPages(pageUrl, page + 1, pageLimit, pages, acc + pages(u).value, next);
      } else {
        assert ScanPages(pageUrl, page, pageLimit, pages, acc, seen).visited == seen + [u];
      }
    }
  }

  /**
   * The search goes on only past pages that yielded candidates; when it ends
   * before `pageLimit` without failing, its last page yielded none.
   */
  lemma ScanStopsAtFirstEmptyPage(pageUrl: nat -> string, page: nat, pageLimit: int,
                                  pages: string -> Option<seq<Candidate>>,
                                  acc: seq<Candidate>, seen: seq<string>)
    ensures var r := ScanPages(pageUrl, page, pageLimit, pages, acc, seen);
            |seen| <= |r.visited|
            && (forall i :: |seen| <= i < |r.visited| - 1 ==> pages(r.visited[i]).Some? && pages(r.visited[i]).value != [])
            && (!r.failed && |r.visited| - |seen| < pageLimit - page + 1 ==>
                  |r.visited| > |seen| && pages(r.visited[|r.visited| - 1]) == Some([]))
  {
    ScanExtendsSeen(pageUrl, page, pageLimit, pages, acc, seen);
    ScanPassesOnlyFullPages(pageUrl, page, pageLimit, pages, acc, seen);
    ScanEndsOnEmptyPage(pageUrl, page, pageLimit, pages, acc, seen);
  }

  /** A failed navigation ends the search with nothing, however many candidates were collected before. */
  lemma {:induction false} ScanFailureLosesEverything(pageUrl: nat -> string, page: nat, pageLimit: int,
                                                      pages: string -> Option<seq<Candidate>>,
                                                      acc: seq<Candidate>, seen: seq<string>)
    ensures var r := ScanPages(pageUrl, page, pageLimit, pages, acc, seen);
            r.failed ==> r.candidates == [] && |r.visited| > |seen| && pages(r.visited[|r.visited| - 1]).None?
    decreases pageLimit - page + 1
  {
    if page <= pageLimit {
      var u := pageUrl(page);
      var r := ScanPages(pageUrl, page, pageLimit, pages, acc, seen);
      match pages(u)
      case None =>
        assert r == SearchResult([], seen + [u], true);
      case Some(found) =>
        if found != [] {
          var r' := ScanPages(pageUrl, page + 1, pageLimit, pages, acc + found, seen + [u]);
          ScanFailureLosesEverything(pageUrl, page + 1, pageLimit, pages, acc + found, seen + [u]);
          assert r == r';
        } else {
          assert !r.failed;
        }
    }
  }

  /** Without a failure, the result is what was collected followed by the candidates of the visited pages, in page order. */
  lemma {:induction false} ScanCollectsPagesInOrder(pageUrl: nat -> string, page: nat, pageLimit: int,
                                                    pages: string -> Option<seq<Candidate>>,
                                                    acc: seq<Candidate>, seen: seq<string>)
    ensures var r := ScanPages(pageUrl, page, pageLimit, pages, acc, seen);
            |seen| <= |r.visited| && (!r.failed ==> r.candidates == acc + Harvest(pages, r.visited[|seen|..]))
    decreases pageLimit - page + 1
  {
    ScanExtendsSeen(pageUrl, page, pageLimit, pages, acc, seen);
    var r := ScanPages(pageUrl, page, pageLimit, pages, acc, seen);
    if page <= pageLimit {
      var u := pageUrl(page);
      if pages(u).Some? && pages(u).value != [] {
        var found := pages(u).value;
        ScanCollectsPagesInOrder(pageUrl, page + 1, pageLimit, pages, acc + found, seen + [u]);
        ScanExtendsSeen(pageUrl, page + 1, pageLimit, pages, acc + found, seen + [u]);
        assert r == ScanPages(pageUrl, page + 1, pageLimit, pages, acc + found, seen + [u]);
        if !r.failed {
          var rest := r.visited[|seen| + 1..];
          assert r.visited[|seen|] == (seen + [u])[|seen|] == u;
          assert r.visited[|seen|..] == [u] + rest;
          assert Harvest(pages, [u] + rest) == found + Harvest(pages, rest);
        }
      } else if pages(u).Some? {
        assert r == SearchResult(acc, seen + [u], false);
        assert r.visited[|seen|..] == [u];
        assert Harvest(pages, [u]) == [];
      } else {
        assert r.failed;
      }
    } else {
      assert r.visited[|seen|..] == [];
    }
  }

  /** Each page yields at most 50 candidates. */
  lemma {:induction false} HarvestBound(fetch: string -> PageLoad, urls: seq<string>)
    ensures |Harvest(Outcomes(fetch), urls)| <= MaxCardsPerPage * |urls|
  {
    if urls != [] {
      HarvestBound(fetch, urls[1..]);
    }
  }

  /** `search_candidates`. */
  method SearchCandidates(base: string, keyword: string, location: string, experience: string, education: string,
                          salaryRange: string, companyType: string, pageLimit: int, fetch: string -> PageLoad)
    returns (candidates: seq<Candidate>, visited: seq<string>)
    ensures var r := ScanPages(PageUrlsOf(BuildSearchUrl(base, keyword, location, experience, education, salaryRange, companyType)),
                               1, pageLimit, Outcomes(fetch), [], []);
            candidates == r.candidates && visited == r.visited
  {
    var url := BuildSearchUrl(base, keyword, location, experience, education, salaryRange, companyType);
    candidates, visited := [], [];
    var page := 1;
    while page <= pageLimit
      invariant page >= 1
      invariant ScanPages(PageUrlsOf(url), page, pageLimit, Outcomes(fetch), candidates, visited)
                == ScanPages(PageUrlsOf(url), 1, pageLimit, Outcomes(fetch), [], [])
      decreases pageLimit - page
    {
      var pageUrl := PageUrl(url, page);
      visited := visited + [pageUrl];
      var load := fetch(pageUrl);
      if load.NavigationFailed? {
        return [], visited;
      }
      var found := ParseCandidateList(load.cards);
      if found == [] {
        return;
      }
      candidates := candidates + found;
      page := page + 1;
    }
  }
}
