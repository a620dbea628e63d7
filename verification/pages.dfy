/** The listing-index URL of each page, shared by both scrapers. */
module Pages {
  import opened Text
  import opened Numbers

  const BASE_URL := "https://www.lopes.com.br/busca/venda/br/ba"
  const FILTERS := "?estagio=real_estate&estagio=real_estate_parent&placeId=ChIJs6U8onwDFgcRBe2RtF9vkn4&origem=home"

  /** Page 1 has no page parameter; page n > 1 appends "&pagina=n". */
  function PageUrl(page: nat): (url: string)
    requires page >= 1
    ensures StartsWith(url, BASE_URL + FILTERS)
  {
    if page == 1 then BASE_URL + FILTERS else BASE_URL + FILTERS + "&pagina=" + NatToString(page)
  }

  /** Page 1 is exactly the base URL with the filters; a later page adds its number after "&pagina=". */
  lemma PageUrlPages(page: nat)
    requires page >= 1
    ensures page == 1 <==> PageUrl(page) == BASE_URL + FILTERS
    ensures page > 1 ==> PageUrl(page)[|BASE_URL + FILTERS|..] == "&pagina=" + NatToString(page)
  {
    if page > 1 {
      var prefix, suffix := BASE_URL + FILTERS, "&pagina=" + NatToString(page);
      assert PageUrl(page) == prefix + suffix;
      assert |PageUrl(page)| > |prefix|;
    }
  }

  /** Distinct pages are requested under distinct URLs. */
  lemma PageUrlInjective(p: nat, q: nat)
    requires p >= 1 && q >= 1 && PageUrl(p) == PageUrl(q)
    ensures p == q
  {
    var prefix := BASE_URL + FILTERS + "&pagina=";
    if p != 1 && q != 1 {
      assert PageUrl(p)[|prefix|..] == NatToString(p);
      assert PageUrl(q)[|prefix|..] == NatToString(q);
      NatToStringInjective(p, q);
    }
  }
}
