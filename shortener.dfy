/**
 * The URL shortener adapter (app/adapters/shortener.py) talking to a fake
 * shortening service. The service keeps one link per external id; the
 * adapter sends one request per operation and turns every failure into
 * `None`, so no operation raises.
 */
module Shortener {
  import opened Wrappers
  import opened Text

  /** What the service stores for one external id. */
  datatype Link = Link(ident: string, longUrl: string, expiresAt: int)

  /** A request the adapter sends, with the URL it addresses. */
  datatype Request =
    | Shorten(url: string, longUrl: string, expiresAt: int, externalId: string)
    | Lookup(url: string)
    | Repoint(url: string, longUrl: string, expiresAt: int, externalId: string)
    | Remove(url: string)

  /**
   * How the service answers one request. `reachable` is false for a
   * transport error, a non-2xx status or an unreadable body;
   * `assignedIdent` is the ident the service gives a newly shortened link.
   */
  datatype Net = Net(reachable: bool, assignedIdent: string)

  /** `f"{base_url}/{ident}"` for an answer with a truthy ident, else `None`. */
  function ShortUrl(baseUrl: string, ident: string): (r: Option<string>)
    ensures r.Some? <==> Truthy(ident)
    ensures r.Some? ==> |r.value| > |baseUrl| && r.value[..|baseUrl|] == baseUrl
  {
    if Truthy(ident) then Some(baseUrl + "/" + ident) else None
  }

  function ShortenEndpoint(baseUrl: string): string {
    baseUrl + "/api/v1/urls/shorten"
  }

  function ExternalEndpoint(baseUrl: string, externalId: string): string {
    baseUrl + "/api/v1/urls/external/" + externalId
  }

  /** The short URL the service answers for `externalId`, as `get_url` returns it. */
  function Resolve(links: map<string, Link>, baseUrl: string, externalId: string): Option<string> {
    if externalId in links then ShortUrl(baseUrl, links[externalId].ident) else None
  }

  /** The service's links after `old_external_id` is repointed to `new_external_id`. */
  function Repointed(links: map<string, Link>, oldId: string, newId: string, longUrl: string, expiresAt: int): map<string, Link>
    requires oldId in links
  {
    (links - {oldId})[newId := Link(links[oldId].ident, longUrl, expiresAt)]
  }

  /** Once a link is registered, looking its id up yields the URL create returned. */
  lemma ResolveRegistered(links: map<string, Link>, baseUrl: string, id: string, link: Link)
    ensures Resolve(links[id := link], baseUrl, id) == ShortUrl(baseUrl, link.ident)
    ensures forall other :: other != id ==> Resolve(links[id := link], baseUrl, other) == Resolve(links, baseUrl, other)
  {
  }

  /**
   * Repointing keeps the short URL: the new id resolves to what the old one
   * did, the old id (when different) no longer resolves, and no other id moves.
   */
  lemma ResolveRepointed(links: map<string, Link>, baseUrl: string, oldId: string, newId: string, longUrl: string, expiresAt: int)
    requires oldId in links
    ensures Resolve(Repointed(links, oldId, newId, longUrl, expiresAt), baseUrl, newId) == Resolve(links, baseUrl, oldId)
    ensures oldId != newId ==> Resolve(Repointed(links, oldId, newId, longUrl, expiresAt), baseUrl, oldId) == None
    ensures forall other :: other != oldId && other != newId ==>
      Resolve(Repointed(links, oldId, newId, longUrl, expiresAt), baseUrl, other) == Resolve(links, baseUrl, other)
  {
  }

  class UrlShortener {
    const baseUrl: string
    const apiKey: Option<string>
    /** The fake service's links, by external id. */
    var links: map<string, Link>
    /** Every request the adapter has sent, oldest first. */
    var requests: seq<Request>

    constructor (baseUrl: string, apiKey: Option<string>, links: map<string, Link>)
      ensures this.baseUrl == baseUrl && this.apiKey == apiKey
      ensures this.links == links && requests == []
    {
      this.baseUrl := baseUrl;
      this.apiKey := apiKey;
      this.links := links;
      requests := [];
    }

    /** `_check_api_key`: a configured, non-empty key. */
    predicate HasApiKey() {
      apiKey.Some? && Truthy(apiKey.value)
    }

    /** What `create_url` returns, from the key and the service's answer. */
    function CreateAnswer(net: Net): (r: Option<string>)
      ensures r.Some? ==> HasApiKey() && net.reachable
    {
      if HasApiKey() && net.reachable then ShortUrl(baseUrl, net.assignedIdent) else None
    }

    /** What `update_url_data` returns: the service answers with the old link's ident. */
    function UpdateAnswer(links: map<string, Link>, oldId: string, net: Net): (r: Option<string>)
      ensures r.Some? ==> HasApiKey() && net.reachable && oldId in links
    {
      if HasApiKey() && net.reachable then Resolve(links, baseUrl, oldId) else None
    }

    /** `create_url`: POST to the shorten endpoint; the service registers the link. */
    method CreateUrl(longUrl: string, expiresAt: int, externalId: string, net: Net) returns (r: Option<string>)
      modifies this`links, this`requests
      ensures r == CreateAnswer(net)
      ensures !HasApiKey() ==> requests == old(requests)
      ensures HasApiKey() ==> requests == old(requests) + [Shorten(ShortenEndpoint(baseUrl), longUrl, expiresAt, externalId)]
      ensures links == if HasApiKey() && net.reachable
        then old(links)[externalId := Link(net.assignedIdent, longUrl, expiresAt)]
        else old(links)
      ensures r.Some? ==> r == Resolve(links, baseUrl, externalId)
    {
      if !HasApiKey() {
        return None;
      }
      requests := requests + [Shorten(ShortenEndpoint(baseUrl), longUrl, expiresAt, externalId)];
      if !net.reachable {
        return None;
      }
      links := links[externalId := Link(net.assignedIdent, longUrl, expiresAt)];
      r := ShortUrl(baseUrl, net.assignedIdent);
    }

    /** `get_url`: GET the link registered under `externalId`; nothing changes. */
    method GetUrl(externalId: string, net: Net) returns (r: Option<string>)
      modifies this`requests
      ensures r == if HasApiKey() && net.reachable then Resolve(links, baseUrl, externalId) else None
      ensures !HasApiKey() ==> requests == old(requests)
      ensures HasApiKey() ==> requests == old(requests) + [Lookup(ExternalEndpoint(baseUrl, externalId))]
    {
      if !HasApiKey() {
        return None;
      }
      requests := requests + [Lookup(ExternalEndpoint(baseUrl, externalId))];
      if !net.reachable {
        return None;
      }
      r := Resolve(links, baseUrl, externalId);
    }

    /**
     * `update_url_data`: PATCH addressed to the old external id, carrying the
     * new one; the service moves the link and keeps its ident. An unknown
     * old id is a 404, which becomes `None`.
     */
    method UpdateUrlData(longUrl: string, expiresAt: int, oldId: string, newId: string, net: Net) returns (r: Option<string>)
      modifies this`links, this`requests
      ensures r == UpdateAnswer(old(links), oldId, net)
      ensures !HasApiKey() ==> requests == old(requests)
      ensures HasApiKey() ==> requests == old(requests) + [Repoint(ExternalEndpoint(baseUrl, oldId), longUrl, expiresAt, newId)]
      ensures links == if HasApiKey() && net.reachable && oldId in old(links)
        then Repointed(old(links), oldId, newId, longUrl, expiresAt)
        else old(links)
      ensures r.Some? ==> r == Resolve(links, baseUrl, newId)
    {
      if !HasApiKey() {
        return None;
      }
      requests := requests + [Repoint(ExternalEndpoint(baseUrl, oldId), longUrl, expiresAt, newId)];
      if !net.reachable || oldId !in links {
        return None;
      }
      r := Resolve(links, baseUrl, oldId);
      ResolveRepointed(links, baseUrl, oldId, newId, longUrl, expiresAt);
      links := Repointed(links, oldId, newId, longUrl, expiresAt);
    }

    /** `delete_url`: DELETE the link; the answer is always `None`. */
    method DeleteUrl(externalId: string, net: Net) returns (r: Option<string>)
      modifies this`links, this`requests
      ensures r == None
      ensures !HasApiKey() ==> requests == old(requests)
      ensures HasApiKey() ==> requests == old(requests) + [Remove(ExternalEndpoint(baseUrl, externalId))]
      ensures links == if HasApiKey() && net.reachable then old(links) - {externalId} else old(links)
      ensures Resolve(links, baseUrl, externalId) == None || !(HasApiKey() && net.reachable)
    {
      r := None;
      if !HasApiKey() {
        return;
      }
      requests := requests + [Remove(ExternalEndpoint(baseUrl, externalId))];
      if net.reachable {
        links := links - {externalId};
      }
    }
  }
}
