/** The `<video>` host element the mount effect builds for the player. */
module Dom {
  import opened Wrappers
  import opened Js

  /** A detached DOM element: its class name and its attributes. */
  datatype VideoElement = VideoElement(className: string, attributes: map<string, string>)

  const VideoClassName: string := "video-js vjs-big-play-centered"

  /**
   * The host element for the given options: the player's class names, inline
   * playback, a preload hint of `options.preload` or else `"none"`, and a poster
   * only when `options.poster` is truthy. `None` when the options are missing,
   * where reading `options.preload` throws before anything is attached.
   */
  function BuildVideoElement(o: Options): (r: Option<VideoElement>)
    ensures r.None? <==> o.Missing?
    ensures r.Some? ==>
      var attrs, preload, poster := r.value.attributes, Get(o, "preload"), Get(o, "poster");
      && r.value.className == VideoClassName
      && "playsinline" in attrs && attrs["playsinline"] == ""
      && "preload" in attrs && attrs["preload"] == (if Truthy(preload) then ToJsString(preload) else "none")
      && ("poster" in attrs <==> Truthy(poster))
      && ("poster" in attrs ==> attrs["poster"] == ToJsString(poster))
      && attrs.Keys <= {"playsinline", "preload", "poster"}
  {
    if o.Missing? then None
    else
      var preload, poster := Get(o, "preload"), Get(o, "poster");
      var attrs := map["playsinline" := "", "preload" := if Truthy(preload) then ToJsString(preload) else "none"];
      Some(VideoElement(VideoClassName, if Truthy(poster) then attrs["poster" := ToJsString(poster)] else attrs))
  }
}
