/** The class texts of the service and what they are classified as. */
module StreamClasses {
  import opened Infos

  const PREFIX := "pyfastocloud_models.stream.entry."
  const CATCHUP_CLS := PREFIX + "CatchupStream"

  function MongoStreamType2StreamType(data: string): StreamType {
    if data == PREFIX + "ProxyStream" then PROXY
    else if data == PREFIX + "ProxyVodStream" then VOD_PROXY
    else if data == PREFIX + "RelayStream" then RELAY
    else if data == PREFIX + "EncodeStream" then ENCODE
    else if data == PREFIX + "VodRelayStream" then VOD_RELAY
    else if data == PREFIX + "VodEncodeStream" then VOD_ENCODE
    else if data == PREFIX + "TimeshiftRecorderStream" then TIMESHIFT_RECORDER
    else if data == PREFIX + "TimeshiftPlayerStream" then TIMESHIFT_PLAYER
    else if data == CATCHUP_CLS then CATCHUP
    else if data == PREFIX + "CodRelayStream" then COD_RELAY
    else if data == PREFIX + "CodEncodeStream" then COD_ENCODE
    else if data == PREFIX + "TestLifeStream" then TEST_LIFE
    else if data == PREFIX + "CvDataStream" then CV_DATA
    else PROXY
  }

  const SERVICE_CLASSES := Classes(CATCHUP_CLS,
                                   "pyfastocloud_models.common_entries.OutputUrl",
                                   "pyfastocloud_models.common_entries.InputUrl",
                                   "pyfastocloud_models.subscriber.entry.UserStream",
                                   "pyfastocloud_models.content_request.entry.ContentRequest")

  /** What the service stores as the class of a catchup is read back as the type CATCHUP. */
  lemma CatchupClass()
    ensures MongoStreamType2StreamType(SERVICE_CLASSES.catchup) == CATCHUP
  {
    assert |CATCHUP_CLS| == |PREFIX| + 13;
  }

  lemma SuffixDecides(s: string, t: string)
    ensures PREFIX + s == PREFIX + t <==> s == t
  {
    assert (PREFIX + s)[|PREFIX|..] == s && (PREFIX + t)[|PREFIX|..] == t;
  }

  /** The type of the class with that name behind the common prefix. */
  function TypeByName(name: string): StreamType {
    if name == "ProxyVodStream" then VOD_PROXY
    else if name == "RelayStream" then RELAY
    else if name == "EncodeStream" then ENCODE
    else if name == "VodRelayStream" then VOD_RELAY
    else if name == "VodEncodeStream" then VOD_ENCODE
    else if name == "TimeshiftRecorderStream" then TIMESHIFT_RECORDER
    else if name == "TimeshiftPlayerStream" then TIMESHIFT_PLAYER
    else if name == "CatchupStream" then CATCHUP
    else if name == "CodRelayStream" then COD_RELAY
    else if name == "CodEncodeStream" then COD_ENCODE
    else if name == "TestLifeStream" then TEST_LIFE
    else if name == "CvDataStream" then CV_DATA
    else PROXY
  }

  /** A class is recognised by the name behind the prefix; an unknown name is taken for a proxy. */
  lemma RecognisedByName(name: string)
    ensures MongoStreamType2StreamType(PREFIX + name) == TypeByName(name)
  {
    SuffixDecides(name, "ProxyStream");
    SuffixDecides(name, "ProxyVodStream");
    SuffixDecides(name, "RelayStream");
    SuffixDecides(name, "EncodeStream");
    SuffixDecides(name, "VodRelayStream");
    SuffixDecides(name, "VodEncodeStream");
    SuffixDecides(name, "TimeshiftRecorderStream");
    SuffixDecides(name, "TimeshiftPlayerStream");
    SuffixDecides(name, "CatchupStream");
    SuffixDecides(name, "CodRelayStream");
    SuffixDecides(name, "CodEncodeStream");
    SuffixDecides(name, "TestLifeStream");
    SuffixDecides(name, "CvDataStream");
  }
}
