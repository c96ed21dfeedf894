/** The RSS document a fetch yields, and the unescaping applied to it. */
module Rss {
  import opened Wrappers
  import opened Errors
  import opened SqlNull

  datatype RssItem = RssItem(title: string, link: string, description: string, pubDate: string)

  datatype Channel = Channel(title: string, link: string, description: string, items: seq<RssItem>)

  /** `html.UnescapeString`, taken as given. */
  type Unescaper = string -> string

  /** The HTTP GET, body read and `xml.Unmarshal` of a feed URL, taken as
      given. The answer depends on the instant of the request as well as the
      URL: a feed publishes new items, and a server that failed may answer
      later. */
  type Downloader = (string, Time) -> Result<Channel, Error>

  /** A decoded document, updated in place. */
  class RssFeed {
    var channel: Channel

    constructor (c: Channel)
      ensures channel == c
    {
      channel := c;
    }

    /** Unescapes the channel's title and description. The loop over the items
        works on a copy of each item, so the items stay as they were. */
    method DecodeEscapedStrings(unescape: Unescaper)
      modifies this
      ensures channel.title == unescape(old(channel.title))
      ensures channel.description == unescape(old(channel.description))
      ensures channel.link == old(channel.link)
      ensures channel.items == old(channel.items)
    {
      channel := channel.(title := unescape(channel.title));
      channel := channel.(description := unescape(channel.description));
      ghost var decoded := channel;
      for i := 0 to |channel.items|
        invariant channel == decoded
      {
        var item := channel.items[i];
        item := item.(title := unescape(item.title));
        item := item.(description := unescape(item.description));
      }
    }
  }

  /** Downloads and decodes a feed at instant `now`, then unescapes it; any
      download failure is the fetch's failure. */
  method FetchFeed(download: Downloader, unescape: Unescaper, url: string, now: Time) returns (r: Result<RssFeed, Error>)
    ensures r.Failure? <==> download(url, now).Failure?
    ensures r.Failure? ==> r.error == download(url, now).error
    ensures r.Success? ==>
              var c := download(url, now).value;
              && fresh(r.value)
              && r.value.channel.title == unescape(c.title)
              && r.value.channel.description == unescape(c.description)
              && r.value.channel.link == c.link
              && r.value.channel.items == c.items
  {
    match download(url, now)
    case Failure(e) =>
      r := Failure(e);
    case Success(c) =>
      var feed := new RssFeed(c);
      feed.DecodeEscapedStrings(unescape);
      r := Success(feed);
  }
}
