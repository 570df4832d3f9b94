/** The printed names of application types, and the search that reads them back. */
module AppNames {
  import opened Types

  /** The enumeration in order, as the search counts through it. */
  const ALL_APPS: seq<AppType> := [
    UNKNOWN, HTTP, HTTPS, DNS, TLS, QUIC, GOOGLE, FACEBOOK, YOUTUBE, TWITTER, INSTAGRAM, NETFLIX, AMAZON, MICROSOFT,
    APPLE, WHATSAPP, TELEGRAM, TIKTOK, SPOTIFY, ZOOM, DISCORD, GITHUB, CLOUDFLARE]

  function AppName(app: AppType): (s: string)
    ensures |s| >= 3
  {
    match app
    case UNKNOWN => "Unknown"
    case HTTP => "HTTP"
    case HTTPS => "HTTPS"
    case DNS => "DNS"
    case TLS => "TLS"
    case QUIC => "QUIC"
    case GOOGLE => "Google"
    case FACEBOOK => "Facebook"
    case YOUTUBE => "YouTube"
    case TWITTER => "Twitter/X"
    case INSTAGRAM => "Instagram"
    case NETFLIX => "Netflix"
    case AMAZON => "Amazon"
    case MICROSOFT => "Microsoft"
    case APPLE => "Apple"
    case WHATSAPP => "WhatsApp"
    case TELEGRAM => "Telegram"
    case TIKTOK => "TikTok"
    case SPOTIFY => "Spotify"
    case ZOOM => "Zoom"
    case DISCORD => "Discord"
    case GITHUB => "GitHub"
    case CLOUDFLARE => "Cloudflare"
  }

  lemma NamesAreDistinct(a: AppType, b: AppType)
    ensures AppName(a) == AppName(b) <==> a == b
  {
  }

  const APP_COUNT := 23

  /** The number behind the name of the enumeration. */
  function Ordinal(app: AppType): (i: nat)
    ensures i < APP_COUNT
  {
    match app
    case UNKNOWN => 0
    case HTTP => 1
    case HTTPS => 2
    case DNS => 3
    case TLS => 4
    case QUIC => 5
    case GOOGLE => 6
    case FACEBOOK => 7
    case YOUTUBE => 8
    case TWITTER => 9
    case INSTAGRAM => 10
    case NETFLIX => 11
    case AMAZON => 12
    case MICROSOFT => 13
    case APPLE => 14
    case WHATSAPP => 15
    case TELEGRAM => 16
    case TIKTOK => 17
    case SPOTIFY => 18
    case ZOOM => 19
    case DISCORD => 20
    case GITHUB => 21
    case CLOUDFLARE => 22
  }

  /** The list counts through the applications, each once. */
  predicate InOrder(apps: seq<AppType>) {
    |apps| >= APP_COUNT && forall i :: 0 <= i < |apps| ==> Ordinal(apps[i]) == i
  }

  lemma AppsAreInOrder()
    ensures InOrder(ALL_APPS)
  {
  }

  lemma SameOrdinal(a: AppType, b: AppType)
    ensures Ordinal(a) == Ordinal(b) <==> a == b
  {
  }

  lemma EveryAppIsListed(app: AppType)
    ensures |ALL_APPS| == APP_COUNT && ALL_APPS[Ordinal(app)] == app
  {
  }

  /** The application with that name, if there is one. */
  ghost predicate Names(name: string, r: Option<AppType>) {
    match r
    case Some(app) => AppName(app) == name
    case None => forall app :: AppName(app) != name
  }

  /** The counting search of `loadRules` and `blockApp`: it finds the application if and only if one has the name. */
  method FindApp(name: string) returns (r: Option<AppType>)
    ensures Names(name, r)
  {
    var i := 0;
    while i < |ALL_APPS|
      invariant 0 <= i <= |ALL_APPS|
      invariant forall k :: 0 <= k < i ==> AppName(ALL_APPS[k]) != name
    {
      if AppName(ALL_APPS[i]) == name {
        return Some(ALL_APPS[i]);
      }
      i := i + 1;
    }
    r := None;
    forall app ensures AppName(app) != name {
      EveryAppIsListed(app);
    }
  }

  ghost function AppNamed(name: string): (r: Option<AppType>)
    ensures Names(name, r)
  {
    if exists app :: AppName(app) == name then
      var app :| AppName(app) == name;
      Some(app)
    else None
  }

  /** A name has at most one meaning, so what the search returns is determined by the name. */
  lemma NamesIsUnique(name: string, r: Option<AppType>)
    requires Names(name, r)
    ensures r == AppNamed(name)
  {
  }

  lemma AppRoundTrip(app: AppType)
    ensures AppNamed(AppName(app)) == Some(app)
  {
  }

  /** The names of the applications that the engines themselves assign. */
  lemma EngineNamesAreRead()
    ensures AppNamed("Unknown") == Some(UNKNOWN) && AppNamed("HTTP") == Some(HTTP)
    ensures AppNamed("HTTPS") == Some(HTTPS) && AppNamed("DNS") == Some(DNS)
  {
    AppRoundTrip(UNKNOWN);
    AppRoundTrip(HTTP);
    AppRoundTrip(HTTPS);
    AppRoundTrip(DNS);
  }
}
