/** The packages of the built-in policy. */
module Packages {
  import opened Identifiers

  predicate IsServerPackage(n: string) {
    n in {"ca-certificates", "certbot", "apache2", "composer", "curl", "default-mysql-server", "ffmpeg", "git", "nginx"}
  }

  predicate IsServicePackage(n: string) {
    n in {"meilisearch", "valkey-server", "rabbitmq-server", "minio", "opensearch", "memcached", "mongodb-org",
      "clickhouse-server", "prometheus"}
  }

  predicate IsToolPackage(n: string) {
    n in {"grafana", "loki", "nodejs", "npm", "php", "python3-certbot-nginx", "postgresql", "redis-server",
      "typesense-server"}
  }

  predicate IsPhpExtension(n: string) {
    n in {"cli", "curl", "fpm", "intl", "mbstring", "mysql", "xml", "zip"}
  }

  predicate IsPhpPackage(n: string) {
    || (|n| > 4 && n[..4] == "php-" && (IsPhpExtension(n[4..]) || n[4..] == "common"))
    || (|n| > 7 && n[..5] == "php8." && '1' <= n[5] <= '4' && n[6] == '-' && IsPhpExtension(n[7..]))
  }

  /** `PackagePolicy::default_catalog` */
  predicate IsTrusted(n: string) {
    IsServerPackage(n) || IsServicePackage(n) || IsToolPackage(n) || IsPhpPackage(n)
  }

  predicate IsPackageChar(c: char) {
    IsLower(c) || IsDigit(c) || c == '-' || c == '.'
  }

  predicate IsPlain(n: string) {
    0 < |n| <= 100 && forall i :: 0 <= i < |n| ==> IsPackageChar(n[i])
  }

  lemma ServerPackagesArePlain(n: string)
    requires IsServerPackage(n)
    ensures IsPlain(n)
  {
  }

  lemma ServicePackagesArePlain(n: string)
    requires IsServicePackage(n)
    ensures IsPlain(n)
  {
  }

  lemma ToolPackagesArePlain(n: string)
    requires IsToolPackage(n)
    ensures IsPlain(n)
  {
  }

  lemma ExtensionsArePlain(n: string)
    requires IsPhpExtension(n) || n == "common"
    ensures IsPlain(n) && |n| <= 8
  {
  }

  lemma PhpPackagesArePlain(n: string)
    requires IsPhpPackage(n)
    ensures IsPlain(n)
  {
    hide IsPhpExtension;
    if |n| > 4 && n[..4] == "php-" && (IsPhpExtension(n[4..]) || n[4..] == "common") {
      ExtensionsArePlain(n[4..]);
      assert forall i :: 0 <= i < 4 ==> n[i] == n[..4][i];
      assert forall i :: 4 <= i < |n| ==> n[i] == n[4..][i - 4];
    } else {
      ExtensionsArePlain(n[7..]);
      assert forall i :: 0 <= i < 5 ==> n[i] == n[..5][i];
      assert forall i :: 7 <= i < |n| ==> n[i] == n[7..][i - 7];
    }
  }

  /** No trusted package name contains a character that a step id cannot. */
  lemma TrustedPackagesArePlain(n: string)
    requires IsTrusted(n)
    ensures IsPlain(n)
  {
    hide IsServerPackage, IsServicePackage, IsToolPackage, IsPhpPackage, IsPlain;
    if IsServerPackage(n) {
      ServerPackagesArePlain(n);
    } else if IsServicePackage(n) {
      ServicePackagesArePlain(n);
    } else if IsToolPackage(n) {
      ToolPackagesArePlain(n);
    } else {
      PhpPackagesArePlain(n);
    }
  }
}
