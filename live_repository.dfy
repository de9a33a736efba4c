/** The muted-URL list of the live repository
    (data/repository/impl/LiveRepositoryImpl.kt, `setMuteByUrl`). */
module LiveRepository {
  import opened Wrappers
  import opened Lists

  /** The app's persisted settings; only the muted URL list is modelled. */
  class Configuration {
    var mutedUrls: seq<string>

    constructor (mutedUrls: seq<string>)
      ensures this.mutedUrls == mutedUrls
    {
      this.mutedUrls := mutedUrls;
    }
  }

  /** The list `setMuteByUrl(url, target)` stores: muting appends `url` when
      it is missing, unmuting drops its first occurrence when present. */
  function SetMute(urls: seq<string>, url: string, target: bool): (r: seq<string>)
    ensures target ==> url in r
    ensures target && url in urls ==> r == urls
    ensures target && url !in urls ==> r == urls + [url]
    ensures !target && url !in urls ==> r == urls
    ensures !target && url in urls ==> r == RemoveFirst(urls, url)
  {
    if target then
      if url !in urls then urls + [url] else urls
    else
      if url in urls then RemoveFirst(urls, url) else urls
  }

  class LiveRepositoryImpl {
    const configuration: Configuration

    constructor (configuration: Configuration)
      ensures this.configuration == configuration
    {
      this.configuration := configuration;
    }

    /** Mutes (`target`) or unmutes the stream URL and reports success. */
    method SetMuteByUrl(url: string, target: bool) returns (r: Resource<()>)
      modifies configuration`mutedUrls
      ensures configuration.mutedUrls == SetMute(old(configuration.mutedUrls), url, target)
      ensures NoDuplicates(old(configuration.mutedUrls)) ==> NoDuplicates(configuration.mutedUrls)
      ensures r == Success(())
    {
      var urls := configuration.mutedUrls;
      if target {
        if url !in urls {
          configuration.mutedUrls := urls + [url];
        }
      } else {
        if url in urls {
          configuration.mutedUrls := RemoveFirst(urls, url);
        }
      }
      if NoDuplicates(urls) {
        SetMuteKeepsNoDuplicates(urls, url, target);
      }
      r := Success(());
    }
  }

  /** Every call keeps the list duplicate-free. */
  lemma SetMuteKeepsNoDuplicates(urls: seq<string>, url: string, target: bool)
    requires NoDuplicates(urls)
    ensures NoDuplicates(SetMute(urls, url, target))
  {
    if target && url !in urls {
      AppendNoDuplicates(urls, url);
    } else if !target {
      RemoveFirstNoDuplicates(urls, url);
    }
  }

  /** After unmuting on a duplicate-free list, `url` is absent. */
  lemma UnmuteRemoves(urls: seq<string>, url: string)
    requires NoDuplicates(urls)
    ensures url !in SetMute(urls, url, false)
  {
    RemoveFirstNoDuplicates(urls, url);
  }

  /** No URL other than the argument is added or removed. */
  lemma SetMuteOnlyTouchesUrl(urls: seq<string>, url: string, target: bool, other: string)
    requires other != url
    ensures other in SetMute(urls, url, target) <==> other in urls
  {
    if !target {
      RemoveFirstOthers(urls, url, other);
    }
  }

  /** Unmuting keeps the other entries in their order: it removes exactly the
      entry at the first occurrence of `url`. */
  lemma UnmuteKeepsOrder(urls: seq<string>, url: string)
    requires url in urls
    ensures var i := FirstIndex(urls, url);
      SetMute(urls, url, false) == urls[..i] + urls[i + 1..]
  {
    RemoveFirstAt(urls, url);
  }

  /** Repeating a call changes nothing more; for unmuting this needs the list
      to be duplicate-free (a second copy of `url` would go on the second call). */
  lemma SetMuteIdempotent(urls: seq<string>, url: string, target: bool)
    requires !target ==> NoDuplicates(urls)
    ensures SetMute(SetMute(urls, url, target), url, target) == SetMute(urls, url, target)
  {
    if !target {
      UnmuteRemoves(urls, url);
    }
  }

  /** With a duplicate the second unmute does change the list. */
  lemma UnmuteTwiceWithDuplicate()
    ensures SetMute(SetMute(["a", "a"], "a", false), "a", false) == []
    ensures SetMute(["a", "a"], "a", false) == ["a"]
  {
    assert ["a", "a"][1..] == ["a"];
  }

  /** Muting a URL that was not muted and unmuting it again restores the list. */
  lemma MuteThenUnmute(urls: seq<string>, url: string)
    requires url !in urls
    ensures SetMute(SetMute(urls, url, true), url, false) == urls
  {
    RemoveFirstAfterAppend(urls, url);
  }
}
