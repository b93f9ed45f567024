/** The twelve countries both the validator and the assessment offer, and the major cities each
    of them knows per country (lower case, as they are compared). */
module Countries {
  /** `country_options`: menu key, country code, display name, in menu order. */
  const CountryOptions: seq<(string, (string, string))> := [
    ("1", ("united_states", "United States")),
    ("2", ("canada", "Canada")),
    ("3", ("united_kingdom", "United Kingdom")),
    ("4", ("australia", "Australia")),
    ("5", ("germany", "Germany")),
    ("6", ("japan", "Japan")),
    ("7", ("india", "India")),
    ("8", ("brazil", "Brazil")),
    ("9", ("south_africa", "South Africa")),
    ("10", ("sweden", "Sweden")),
    ("11", ("israel", "Israel")),
    ("12", ("france", "France"))
  ]

  /** `major_cities_by_country`. */
  const MajorCities: map<string, seq<string>> := map[
    "united_states" := ["new york", "los angeles", "chicago", "houston", "phoenix", "philadelphia",
                        "san antonio", "san diego", "dallas", "san jose", "austin", "jacksonville"],
    "canada" := ["toronto", "montreal", "vancouver", "calgary", "edmonton", "ottawa", "winnipeg"],
    "united_kingdom" := ["london", "birmingham", "manchester", "glasgow", "liverpool", "leeds", "sheffield"],
    "australia" := ["sydney", "melbourne", "brisbane", "perth", "adelaide", "gold coast", "canberra"],
    "germany" := ["berlin", "hamburg", "munich", "cologne", "frankfurt", "stuttgart", "d\U{FC}sseldorf"],
    "japan" := ["tokyo", "osaka", "yokohama", "nagoya", "sapporo", "fukuoka", "kyoto"],
    "india" := ["mumbai", "delhi", "bangalore", "kolkata", "chennai", "hyderabad", "pune"],
    "brazil" := ["s\U{E3}o paulo", "rio de janeiro", "bras\U{ED}lia", "salvador", "fortaleza", "belo horizonte"],
    "south_africa" := ["johannesburg", "cape town", "durban", "pretoria", "port elizabeth"],
    "sweden" := ["stockholm", "g\U{F6}teborg", "malm\U{F6}", "uppsala", "v\U{E4}ster\U{E5}s", "\U{F6}rebro"],
    "israel" := ["tel aviv", "jerusalem", "haifa", "rishon lezion", "petah tikva", "ashdod", "netanya"],
    "france" := ["paris", "marseille", "lyon", "toulouse", "nice", "nantes", "strasbourg", "montpellier"]
  ]
}
